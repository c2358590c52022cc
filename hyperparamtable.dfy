/**
 * utils/parse_hyperparam_search.py, lines 40-110: the `results` dictionary the
 * script fills from the log files, layer by hyperparameter by value, and its
 * reduction to the lowest cost of each list.
 */
module HyperparamTable {
  import opened Wrappers
  import opened PyStr
  import opened CostLine
  import opened Ranking
  import opened HyperparamSearch

  // ---------------------------------------------------------------------------
  // Lines 84-88 as written

  /**
   * The key of a file as the script computes it: for a name the pattern does
   * not match, `extract_model_name` returns None, and unpacking None into
   * three names raises a TypeError before `if hparam is None` is reached.
   */
  function FileKeyAsWritten(name: string): Result<(string, string)> {
    match SearchFrom(name, 0)
    case None => Err(TypeError)
    case Some(g) => Ok((g.hparam, Rejoined(g)))
  }

  /** A file of the listing as the script reads it. */
  function AddFileAsWritten(T: CostTable, file: (string, seq<string>), toFloat: string -> Option<real>): Result<CostTable> {
    match FileKeyAsWritten(file.0)
    case Err(e) => Err(e)
    case Ok(key) => AddLines(T, key, file.1, toFloat)
  }

  /** A name with no dash never matches: as written it raises a TypeError, as intended it is skipped. */
  lemma NameWithoutDash(name: string)
    requires forall i :: 0 <= i < |name| ==> name[i] != '-'
    ensures FileKeyAsWritten(name) == Err(TypeError)
    ensures FileKey(name) == None
  {
    assert forall q :: 0 <= q < |name| ==> !DashAt(name, q);
    SearchFromNone(name, 0);
  }

  /**
   * Any other entry of the directory, such as a file "notes.txt", stops the
   * script as written, though the test on line 87 is meant to skip it.
   */
  lemma OtherEntryStopsScript(toFloat: string -> Option<real>)
    ensures AddFileAsWritten(Initial(), ("notes.txt", []), toFloat) == Err(TypeError)
    ensures AddFile(Initial(), ("notes.txt", []), toFloat) == Ok(Initial())
  {
    NameWithoutDash("notes.txt");
  }

  /** On names the pattern matches, the written and the intended reading agree; the group `hparam` is never None. */
  lemma AsWrittenAgreesOnMatches(T: CostTable, file: (string, seq<string>), toFloat: string -> Option<real>)
    requires FileKeyAsWritten(file.0).Ok?
    ensures FileKey(file.0) == Some(FileKeyAsWritten(file.0).value)
    ensures AddFileAsWritten(T, file, toFloat) == AddFile(T, file, toFloat)
  {
  }

  /** The file loop of lines 81-99 as written: the first exception, the TypeError of an unmatched name included, stops the script. */
  function AddFilesAsWritten(T: CostTable, files: seq<(string, seq<string>)>, toFloat: string -> Option<real>): Result<CostTable>
    decreases |files|
  {
    if files == [] then Ok(T)
    else
      match AddFilesAsWritten(T, files[..|files| - 1], toFloat)
      case Err(e) => Err(e)
      case Ok(T1) => AddFileAsWritten(T1, files[|files| - 1], toFloat)
  }

  /** When the pattern matches every name of the listing, the loop as written and the loop as intended agree. */
  lemma {:induction false} AsWrittenAgreesOnMatchedListing(T: CostTable, files: seq<(string, seq<string>)>, toFloat: string -> Option<real>)
    requires forall i :: 0 <= i < |files| ==> FileKey(files[i].0).Some?
    ensures AddFilesAsWritten(T, files, toFloat) == AddFiles(T, files, toFloat)
    decreases |files|
  {
    if files != [] {
      var init, last := files[..|files| - 1], files[|files| - 1];
      assert forall i :: 0 <= i < |init| ==> init[i] == files[i];
      AsWrittenAgreesOnMatchedListing(T, init, toFloat);
      match AddFiles(T, init, toFloat)
      case Err(e) =>
      case Ok(T1) =>
        assert FileKey(last.0).Some?;
        AsWrittenAgreesOnMatches(T1, last, toFloat);
    }
  }

  /** As written, a failing prefix of the listing fails the whole run. */
  lemma {:induction false} AsWrittenFailsFrom(T: CostTable, files: seq<(string, seq<string>)>, i: nat, toFloat: string -> Option<real>)
    requires i <= |files| && AddFilesAsWritten(T, files[..i], toFloat).Err?
    ensures AddFilesAsWritten(T, files, toFloat) == AddFilesAsWritten(T, files[..i], toFloat)
    decreases |files|
  {
    if i < |files| {
      var init := files[..|files| - 1];
      assert init[..i] == files[..i];
      AsWrittenFailsFrom(T, init, i, toFloat);
    } else {
      assert files[..i] == files;
    }
  }

  /** As written, an entry the pattern does not match stops the script with a TypeError unless an earlier file raised. */
  lemma UnmatchedStopsListing(T: CostTable, files: seq<(string, seq<string>)>, i: nat, toFloat: string -> Option<real>)
    requires i < |files| && FileKey(files[i].0) == None
    requires AddFilesAsWritten(T, files[..i], toFloat).Ok?
    ensures AddFilesAsWritten(T, files, toFloat) == Err(TypeError)
  {
    assert AddFilesAsWritten(T, files[..i + 1], toFloat) == Err(TypeError) by {
      assert files[..i + 1][..i] == files[..i] && files[..i + 1][i] == files[i];
    }
    AsWrittenFailsFrom(T, files, i + 1, toFloat);
  }

  /**
   * As written, the first entry the pattern does not match ends the run with a
   * TypeError whenever the files before it, all matched, get through; the
   * intended loop would skip it and go on.
   */
  lemma FirstUnmatchedEntry(T: CostTable, files: seq<(string, seq<string>)>, i: nat, toFloat: string -> Option<real>)
    requires i < |files| && FileKey(files[i].0) == None
    requires forall k :: 0 <= k < i ==> FileKey(files[k].0).Some?
    requires AddFiles(T, files[..i], toFloat).Ok?
    ensures AddFilesAsWritten(T, files, toFloat) == Err(TypeError)
  {
    assert AddFilesAsWritten(T, files[..i], toFloat) == AddFiles(T, files[..i], toFloat) by {
      assert forall k :: 0 <= k < i ==> files[..i][k] == files[k];
      AsWrittenAgreesOnMatchedListing(T, files[..i], toFloat);
    }
    UnmatchedStopsListing(T, files, i, toFloat);
  }

  // ---------------------------------------------------------------------------
  // The results table

  /** The hyperparameters the script creates a dictionary for in every layer. */
  const Hparams: set<string> := {"learning_rate", "momentum", "weight_decay", "corruption"}

  /** layer -> hyperparameter -> value -> the costs read for it, in reading order */
  type CostTable = map<string, map<string, map<string, seq<real>>>>

  /** layer -> hyperparameter -> value -> lowest cost */
  type ScoreTable = map<string, map<string, map<string, real>>>

  /** A file's key: hyperparameter name and value text. */
  type Key = (string, string)

  /** The sixteen empty dictionaries the script starts from. */
  function Initial(): CostTable {
    map l | l in LayerKeys :: map h | h in Hparams :: map[]
  }

  /** No list of the table is empty. */
  predicate NoEmptyList(T: CostTable) {
    forall l, h, v :: l in T && h in T[l] && v in T[l][h] ==> |T[l][h][v]| > 0
  }

  /**
   * The shape the table keeps: the four layers, the same hyperparameter
   * dictionaries `names` in each, and no empty list. (The script's table has
   * `names == Hparams`; the lemmas below hold for any set of names.)
   */
  ghost predicate WellFormed(T: CostTable, names: set<string>) {
    && T.Keys == LayerKeys
    && (forall l, h :: l in T ==> (h in T[l] <==> h in names))
    && NoEmptyList(T)
  }

  /** The costs recorded for (layer, key); empty when there is no entry. */
  function Get(T: CostTable, layer: string, key: Key): seq<real> {
    if layer in T && key.0 in T[layer] && key.1 in T[layer][key.0] then T[layer][key.0][key.1] else []
  }

  /** The list under `v` with `cost` appended, or a new list holding just `cost`. */
  function Append(d: map<string, seq<real>>, v: string, cost: real): map<string, seq<real>> {
    d[v := (if v in d then d[v] else []) + [cost]]
  }

  /** `results[layer][hparam]` is a KeyError for a layer or a hyperparameter the table lacks; a list is appended to or started. */
  function AddCost(T: CostTable, layer: string, key: Key, cost: real): Result<CostTable> {
    if layer !in T || key.0 !in T[layer] then Err(KeyError)
    else Ok(T[layer := T[layer][key.0 := Append(T[layer][key.0], key.1, cost)]])
  }

  /** One line of a file: only lines that start with "Pre-training" are read. */
  function AddLine(T: CostTable, key: Key, line: string, toFloat: string -> Option<real>): Result<CostTable> {
    if !StartsWith(line, Marker) then Ok(T)
    else
      match ExtractCost(line, toFloat)
      case Err(e) => Err(e)
      case Ok((layer, cost)) => AddCost(T, layer, key, cost)
  }

  /** The lines of a file, in order; the first exception stops the script. */
  function AddLines(T: CostTable, key: Key, lines: seq<string>, toFloat: string -> Option<real>): Result<CostTable>
    decreases |lines|
  {
    if lines == [] then Ok(T)
    else
      match AddLines(T, key, lines[..|lines| - 1], toFloat)
      case Err(e) => Err(e)
      case Ok(T1) => AddLine(T1, key, lines[|lines| - 1], toFloat)
  }

  /** A file of the listing as intended: one the pattern does not match is skipped. */
  function AddFile(T: CostTable, file: (string, seq<string>), toFloat: string -> Option<real>): Result<CostTable> {
    match FileKey(file.0)
    case None => Ok(T)
    case Some(key) => AddLines(T, key, file.1, toFloat)
  }

  /** The files of the listing, in order. */
  function AddFiles(T: CostTable, files: seq<(string, seq<string>)>, toFloat: string -> Option<real>): Result<CostTable>
    decreases |files|
  {
    if files == [] then Ok(T)
    else
      match AddFiles(T, files[..|files| - 1], toFloat)
      case Err(e) => Err(e)
      case Ok(T1) => AddFile(T1, files[|files| - 1], toFloat)
  }

  // Reference definitions: what the table should hold, without the table.

  /** The costs one file reports for `layer` if its key is `key`. */
  function FileCosts(file: (string, seq<string>), layer: string, key: Key, toFloat: string -> Option<real>): seq<real> {
    if FileKey(file.0) == Some(key) then LineCosts(file.1, layer, toFloat) else []
  }

  /** The costs all files with key `key` report for `layer`, in listing and line order. */
  function CostsOf(files: seq<(string, seq<string>)>, layer: string, key: Key, toFloat: string -> Option<real>): seq<real>
    decreases |files|
  {
    if files == [] then []
    else CostsOf(files[..|files| - 1], layer, key, toFloat) + FileCosts(files[|files| - 1], layer, key, toFloat)
  }

  /** A line of a file of hyperparameter `hparam` the script gets past. */
  predicate LineAcceptedFor(line: string, hparam: string, names: set<string>, toFloat: string -> Option<real>) {
    LineAccepted(line, toFloat) && (StartsWith(line, Marker) ==> hparam in names)
  }

  predicate LinesAcceptedFor(lines: seq<string>, hparam: string, names: set<string>, toFloat: string -> Option<real>) {
    forall j :: 0 <= j < |lines| ==> LineAcceptedFor(lines[j], hparam, names, toFloat)
  }

  /** Every line of every file that is read is accepted. */
  predicate Accepted(files: seq<(string, seq<string>)>, names: set<string>, toFloat: string -> Option<real>) {
    forall i :: 0 <= i < |files| && FileKey(files[i].0).Some? ==> LinesAcceptedFor(files[i].1, FileKey(files[i].0).value.0, names, toFloat)
  }

  lemma AppendSpec(d: map<string, seq<real>>, v: string, cost: real)
    requires forall v' :: v' in d ==> |d[v']| > 0
    ensures var d1 := Append(d, v, cost);
      && d1.Keys == d.Keys + {v}
      && (forall v' :: v' in d1 ==> |d1[v']| > 0)
      && (forall v' :: v' != v ==> (v' in d1 <==> v' in d) && (v' in d ==> d1[v'] == d[v']))
      && d1[v] == (if v in d then d[v] else []) + [cost]
  {
  }

  /** The two branches of lines 95-98: an existing list is appended to, a missing one started. */
  lemma AppendCases(d: map<string, seq<real>>, v: string, cost: real)
    ensures v in d ==> Append(d, v, cost) == d[v := d[v] + [cost]]
    ensures v !in d ==> Append(d, v, cost) == d[v := [cost]]
  {
    if v !in d {
      assert [] + [cost] == [cost];
    }
  }

  /** A cost added under a layer and a hyperparameter the table has keeps its shape. */
  lemma AddCostKeepsShape(T: CostTable, names: set<string>, layer: string, key: Key, cost: real)
    requires WellFormed(T, names) && layer in T && key.0 in T[layer]
    ensures AddCost(T, layer, key, cost).Ok? && WellFormed(AddCost(T, layer, key, cost).value, names)
  {
    var d1 := Append(T[layer][key.0], key.1, cost);
    AppendSpec(T[layer][key.0], key.1, cost);
    var T1 := T[layer := T[layer][key.0 := d1]];
    assert AddCost(T, layer, key, cost) == Ok(T1);
    forall l, h, v | l in T1 && h in T1[l] && v in T1[l][h] ensures |T1[l][h][v]| > 0 {
      if l == layer && h == key.0 {
        assert T1[l][h] == d1;
      } else {
        assert T1[l][h] == T[l][h];
      }
    }
  }

  /** A cost added under a layer and a hyperparameter the table has extends that one list and no other. */
  lemma AddCostExtends(T: CostTable, layer: string, key: Key, cost: real)
    requires layer in T && key.0 in T[layer]
    ensures AddCost(T, layer, key, cost).Ok?
    ensures forall l, k ::
      Get(AddCost(T, layer, key, cost).value, l, k) == Get(T, l, k) + (if l == layer && k == key then [cost] else [])
  {
    var d := T[layer][key.0];
    var d1 := Append(d, key.1, cost);
    var T1 := T[layer := T[layer][key.0 := d1]];
    assert AddCost(T, layer, key, cost) == Ok(T1);
    forall l, k ensures Get(T1, l, k) == Get(T, l, k) + (if l == layer && k == key then [cost] else []) {
      if l == layer && k.0 == key.0 {
        assert T1[l][k.0] == d1;
        if k.1 == key.1 {
          assert Get(T, l, k) == if key.1 in d then d[key.1] else [];
        }
      } else if l in T && k.0 in T[l] {
        assert T1[l][k.0] == T[l][k.0];
      }
    }
  }

  lemma AddCostSpec(T: CostTable, names: set<string>, layer: string, key: Key, cost: real)
    requires WellFormed(T, names)
    ensures AddCost(T, layer, key, cost).Ok? <==> layer in LayerKeys && key.0 in names
    ensures AddCost(T, layer, key, cost).Err? ==> AddCost(T, layer, key, cost).error == KeyError
    ensures AddCost(T, layer, key, cost).Ok? ==>
      var T1 := AddCost(T, layer, key, cost).value;
      && WellFormed(T1, names)
      && forall l, k :: Get(T1, l, k) == Get(T, l, k) + (if l == layer && k == key then [cost] else [])
  {
    if layer in T && key.0 in T[layer] {
      AddCostKeepsShape(T, names, layer, key, cost);
      AddCostExtends(T, layer, key, cost);
    }
  }

  /** The script's starting table has the shape the lemmas below keep. */
  lemma InitialWellFormed()
    ensures WellFormed(Initial(), Hparams)
  {
  }

  // Which lines and files get through, and the shape they leave.

  lemma AddLineAccepts(T: CostTable, names: set<string>, key: Key, line: string, toFloat: string -> Option<real>)
    requires WellFormed(T, names)
    ensures AddLine(T, key, line, toFloat).Ok? <==> LineAcceptedFor(line, key.0, names, toFloat)
    ensures AddLine(T, key, line, toFloat).Err? ==>
      AddLine(T, key, line, toFloat).error ==
        if ExtractCost(line, toFloat).Err? then ExtractCost(line, toFloat).error else KeyError
    ensures AddLine(T, key, line, toFloat).Ok? ==> WellFormed(AddLine(T, key, line, toFloat).value, names)
  {
    if StartsWith(line, Marker) {
      match ExtractCost(line, toFloat)
      case Err(e) =>
      case Ok((layer, cost)) =>
        if layer in T && key.0 in T[layer] {
          AddCostKeepsShape(T, names, layer, key, cost);
        }
    }
  }

  lemma {:induction false} AddLinesAccepts(T: CostTable, names: set<string>, key: Key, lines: seq<string>, toFloat: string -> Option<real>)
    requires WellFormed(T, names)
    ensures AddLines(T, key, lines, toFloat).Ok? <==> LinesAcceptedFor(lines, key.0, names, toFloat)
    ensures AddLines(T, key, lines, toFloat).Ok? ==> WellFormed(AddLines(T, key, lines, toFloat).value, names)
    decreases |lines|
  {
    if lines != [] {
      var init, last := lines[..|lines| - 1], lines[|lines| - 1];
      AddLinesAccepts(T, names, key, init, toFloat);
      assert LinesAcceptedFor(lines, key.0, names, toFloat) <==>
        LinesAcceptedFor(init, key.0, names, toFloat) && LineAcceptedFor(last, key.0, names, toFloat)
      by {
        assert forall j :: 0 <= j < |init| ==> init[j] == lines[j];
      }
      match AddLines(T, key, init, toFloat)
      case Err(e) =>
      case Ok(T1) =>
        AddLineAccepts(T1, names, key, last, toFloat);
    }
  }

  lemma AddFileAccepts(T: CostTable, names: set<string>, file: (string, seq<string>), toFloat: string -> Option<real>)
    requires WellFormed(T, names)
    ensures AddFile(T, file, toFloat).Ok? <==>
      (FileKey(file.0).Some? ==> LinesAcceptedFor(file.1, FileKey(file.0).value.0, names, toFloat))
    ensures AddFile(T, file, toFloat).Ok? ==> WellFormed(AddFile(T, file, toFloat).value, names)
  {
    match FileKey(file.0)
    case None =>
    case Some(key) =>
      AddLinesAccepts(T, names, key, file.1, toFloat);
  }

  lemma AcceptedSnoc(files: seq<(string, seq<string>)>, names: set<string>, toFloat: string -> Option<real>)
    requires files != []
    ensures var last := files[|files| - 1];
      Accepted(files, names, toFloat) <==>
        && Accepted(files[..|files| - 1], names, toFloat)
        && (FileKey(last.0).Some? ==> LinesAcceptedFor(last.1, FileKey(last.0).value.0, names, toFloat))
  {
    var init := files[..|files| - 1];
    assert forall i :: 0 <= i < |init| ==> init[i] == files[i];
  }

  /** The file loop gets through the listing exactly when every line it reads is accepted, and keeps the table's shape. */
  lemma {:induction false} AddFilesAccepts(T: CostTable, names: set<string>, files: seq<(string, seq<string>)>, toFloat: string -> Option<real>)
    requires WellFormed(T, names)
    ensures AddFiles(T, files, toFloat).Ok? <==> Accepted(files, names, toFloat)
    ensures AddFiles(T, files, toFloat).Ok? ==> WellFormed(AddFiles(T, files, toFloat).value, names)
    decreases |files|
  {
    if files != [] {
      var init, last := files[..|files| - 1], files[|files| - 1];
      AddFilesAccepts(T, names, init, toFloat);
      AcceptedSnoc(files, names, toFloat);
      match AddFiles(T, init, toFloat)
      case Err(e) =>
      case Ok(T1) =>
        AddFileAccepts(T1, names, last, toFloat);
    }
  }

  /** Lines that do not start with "Pre-training" change nothing, wherever they stand. */
  lemma {:induction false} OtherLinesIgnored(T: CostTable, key: Key, lines: seq<string>, others: seq<string>, toFloat: string -> Option<real>)
    requires forall j :: 0 <= j < |others| ==> !StartsWith(others[j], Marker)
    ensures AddLines(T, key, lines + others, toFloat) == AddLines(T, key, lines, toFloat)
    decreases |others|
  {
    if others == [] {
      assert lines + others == lines;
    } else {
      var init := others[..|others| - 1];
      assert (lines + others)[..|lines + others| - 1] == lines + init;
      OtherLinesIgnored(T, key, lines, init, toFloat);
    }
  }

  // What a run that gets through adds to the lists.

  lemma AddLineCosts(T: CostTable, key: Key, line: string, toFloat: string -> Option<real>)
    requires AddLine(T, key, line, toFloat).Ok?
    ensures forall l, k ::
      Get(AddLine(T, key, line, toFloat).value, l, k) == Get(T, l, k) + (if k == key then LineCost(line, l, toFloat) else [])
  {
    if StartsWith(line, Marker) {
      var (layer, cost) := ExtractCost(line, toFloat).value;
      AddCostExtends(T, layer, key, cost);
      assert forall l :: LineCost(line, l, toFloat) == if l == layer then [cost] else [];
    }
  }

  lemma {:induction false} AddLinesCosts(T: CostTable, key: Key, lines: seq<string>, toFloat: string -> Option<real>)
    requires AddLines(T, key, lines, toFloat).Ok?
    ensures forall l, k ::
      Get(AddLines(T, key, lines, toFloat).value, l, k) == Get(T, l, k) + (if k == key then LineCosts(lines, l, toFloat) else [])
    decreases |lines|
  {
    if lines != [] {
      var init, last := lines[..|lines| - 1], lines[|lines| - 1];
      var T1 := AddLines(T, key, init, toFloat).value;
      var T2 := AddLine(T1, key, last, toFloat).value;
      AddLinesCosts(T, key, init, toFloat);
      AddLineCosts(T1, key, last, toFloat);
      forall l, k ensures Get(T2, l, k) == Get(T, l, k) + (if k == key then LineCosts(lines, l, toFloat) else []) {
        if k == key {
          var a, b, c := Get(T, l, k), LineCosts(init, l, toFloat), LineCost(last, l, toFloat);
          assert LineCosts(lines, l, toFloat) == b + c;
          assert (a + b) + c == a + (b + c);
        }
      }
    }
  }

  lemma AddFileCosts(T: CostTable, file: (string, seq<string>), l: string, k: Key, toFloat: string -> Option<real>)
    requires AddFile(T, file, toFloat).Ok?
    ensures Get(AddFile(T, file, toFloat).value, l, k) == Get(T, l, k) + FileCosts(file, l, k, toFloat)
  {
    match FileKey(file.0)
    case None =>
    case Some(key) =>
      AddLinesCosts(T, key, file.1, toFloat);
  }

  lemma {:induction false} AddFilesCosts(T: CostTable, files: seq<(string, seq<string>)>, l: string, k: Key, toFloat: string -> Option<real>)
    requires AddFiles(T, files, toFloat).Ok?
    ensures Get(AddFiles(T, files, toFloat).value, l, k) == Get(T, l, k) + CostsOf(files, l, k, toFloat)
    decreases |files|
  {
    if files != [] {
      var init, last := files[..|files| - 1], files[|files| - 1];
      var T1 := AddFiles(T, init, toFloat).value;
      var T2 := AddFiles(T, files, toFloat).value;
      var a, b, c := Get(T, l, k), CostsOf(init, l, k, toFloat), FileCosts(last, l, k, toFloat);
      assert Get(T1, l, k) == a + b by {
        AddFilesCosts(T, init, l, k, toFloat);
      }
      assert Get(T2, l, k) == Get(T1, l, k) + c by {
        AddFileCosts(T1, last, l, k, toFloat);
      }
      assert CostsOf(files, l, k, toFloat) == b + c;
      Concat3(Get(T2, l, k), Get(T1, l, k), a, b, c, CostsOf(files, l, k, toFloat));
    }
  }

  lemma AddFilesSpec(T: CostTable, names: set<string>, files: seq<(string, seq<string>)>, toFloat: string -> Option<real>)
    requires WellFormed(T, names)
    ensures AddFiles(T, files, toFloat).Ok? <==> Accepted(files, names, toFloat)
    ensures AddFiles(T, files, toFloat).Ok? ==>
      var T1 := AddFiles(T, files, toFloat).value;
      && WellFormed(T1, names)
      && forall l, k :: Get(T1, l, k) == Get(T, l, k) + CostsOf(files, l, k, toFloat)
  {
    AddFilesAccepts(T, names, files, toFloat);
    if AddFiles(T, files, toFloat).Ok? {
      forall l, k ensures Get(AddFiles(T, files, toFloat).value, l, k) == Get(T, l, k) + CostsOf(files, l, k, toFloat) {
        AddFilesCosts(T, files, l, k, toFloat);
      }
    }
  }

  /**
   * After the file loop, `results[layer][hparam][value]` exists exactly when
   * some line of a file with that key reported a cost for the layer, and it
   * lists those costs in listing and line order. The loop gets through the
   * files exactly when every cost line it reads parses and names one of the
   * four layers, in a file of one of the four hyperparameters.
   */
  lemma Accumulated(files: seq<(string, seq<string>)>, toFloat: string -> Option<real>)
    ensures AddFiles(Initial(), files, toFloat).Ok? <==> Accepted(files, Hparams, toFloat)
    ensures AddFiles(Initial(), files, toFloat).Ok? ==>
      var T := AddFiles(Initial(), files, toFloat).value;
      && WellFormed(T, Hparams)
      && forall l, h, v :: l in LayerKeys && h in Hparams ==>
           && (v in T[l][h] <==> CostsOf(files, l, (h, v), toFloat) != [])
           && (v in T[l][h] ==> T[l][h][v] == CostsOf(files, l, (h, v), toFloat))
  {
    InitialWellFormed();
    AddFilesSpec(Initial(), Hparams, files, toFloat);
    if AddFiles(Initial(), files, toFloat).Ok? {
      InitialEmpty();
      EntriesOf(Initial(), AddFiles(Initial(), files, toFloat).value, Hparams, files, toFloat);
    }
  }

  lemma InitialEmpty()
    ensures forall l, k :: Get(Initial(), l, k) == []
  {
  }

  /** A well-formed table that added the costs of `files` to empty lists holds exactly those costs. */
  lemma EntriesOf(T0: CostTable, T: CostTable, names: set<string>, files: seq<(string, seq<string>)>, toFloat: string -> Option<real>)
    requires WellFormed(T, names)
    requires forall l, k :: Get(T0, l, k) == []
    requires forall l, k :: Get(T, l, k) == Get(T0, l, k) + CostsOf(files, l, k, toFloat)
    ensures forall l, h, v :: l in LayerKeys && h in names ==>
      && (v in T[l][h] <==> CostsOf(files, l, (h, v), toFloat) != [])
      && (v in T[l][h] ==> T[l][h][v] == CostsOf(files, l, (h, v), toFloat))
  {
    forall l, h, v | l in LayerKeys && h in names
      ensures (v in T[l][h] <==> CostsOf(files, l, (h, v), toFloat) != [])
      ensures (v in T[l][h] ==> T[l][h][v] == CostsOf(files, l, (h, v), toFloat))
    {
      assert Get(T0, l, (h, v)) == [];
      assert Get(T, l, (h, v)) == CostsOf(files, l, (h, v), toFloat);
    }
  }

  /** An exception stops the script: a failing prefix of the lines fails the whole file. */
  lemma {:induction false} LinesFailFrom(T: CostTable, key: Key, lines: seq<string>, j: nat, toFloat: string -> Option<real>)
    requires j <= |lines| && AddLines(T, key, lines[..j], toFloat).Err?
    ensures AddLines(T, key, lines, toFloat) == AddLines(T, key, lines[..j], toFloat)
    decreases |lines|
  {
    if j < |lines| {
      var init := lines[..|lines| - 1];
      assert init[..j] == lines[..j];
      LinesFailFrom(T, key, init, j, toFloat);
    } else {
      assert lines[..j] == lines;
    }
  }

  /** An exception stops the script: a failing prefix of the listing fails the whole run. */
  lemma {:induction false} FilesFailFrom(T: CostTable, files: seq<(string, seq<string>)>, i: nat, toFloat: string -> Option<real>)
    requires i <= |files| && AddFiles(T, files[..i], toFloat).Err?
    ensures AddFiles(T, files, toFloat) == AddFiles(T, files[..i], toFloat)
    decreases |files|
  {
    if i < |files| {
      var init := files[..|files| - 1];
      assert init[..i] == files[..i];
      FilesFailFrom(T, init, i, toFloat);
    } else {
      assert files[..i] == files;
    }
  }

  /** An exception on line `j` of file `i` is the outcome of the whole run. */
  lemma FailureAt(T0: CostTable, files: seq<(string, seq<string>)>, i: nat, T1: CostTable, key: Key,
                  j: nat, T2: CostTable, e: Exception, toFloat: string -> Option<real>)
    requires i < |files| && FileKey(files[i].0) == Some(key) && j < |files[i].1|
    requires AddFiles(T0, files[..i], toFloat) == Ok(T1)
    requires AddLines(T1, key, files[i].1[..j], toFloat) == Ok(T2)
    requires AddLine(T2, key, files[i].1[j], toFloat) == Err(e)
    ensures AddFiles(T0, files, toFloat) == Err(e)
  {
    LineFailsFile(T1, key, files[i].1, j, T2, e, toFloat);
    assert AddFile(T1, files[i], toFloat) == Err(e);
    FileFailsRun(T0, files, i, T1, e, toFloat);
  }

  /** The exception of line `j` is the outcome of its file. */
  lemma LineFailsFile(T1: CostTable, key: Key, lines: seq<string>, j: nat, T2: CostTable, e: Exception, toFloat: string -> Option<real>)
    requires j < |lines|
    requires AddLines(T1, key, lines[..j], toFloat) == Ok(T2)
    requires AddLine(T2, key, lines[j], toFloat) == Err(e)
    ensures AddLines(T1, key, lines, toFloat) == Err(e)
  {
    assert AddLines(T1, key, lines[..j + 1], toFloat) == Err(e) by {
      assert lines[..j + 1][..j] == lines[..j] && lines[..j + 1][j] == lines[j];
    }
    LinesFailFrom(T1, key, lines, j + 1, toFloat);
  }

  /** The exception of file `i` is the outcome of the run. */
  lemma FileFailsRun(T0: CostTable, files: seq<(string, seq<string>)>, i: nat, T1: CostTable, e: Exception, toFloat: string -> Option<real>)
    requires i < |files|
    requires AddFiles(T0, files[..i], toFloat) == Ok(T1)
    requires AddFile(T1, files[i], toFloat) == Err(e)
    ensures AddFiles(T0, files, toFloat) == Err(e)
  {
    assert AddFiles(T0, files[..i + 1], toFloat) == Err(e) by {
      assert files[..i + 1][..i] == files[..i] && files[..i + 1][i] == files[i];
    }
    FilesFailFrom(T0, files, i + 1, toFloat);
  }

  /** The table after the second pass: every list replaced by its minimum. */
  function MinTable(T: CostTable): ScoreTable
    requires NoEmptyList(T)
  {
    map l | l in T :: MinRow(T[l])
  }

  /** No list of one layer's dictionaries is empty. */
  predicate RowNoEmptyList(R: map<string, map<string, seq<real>>>) {
    forall h, v :: h in R && v in R[h] ==> |R[h][v]| > 0
  }

  /** One layer's dictionaries with every list replaced by its minimum. */
  function MinRow(R: map<string, map<string, seq<real>>>): map<string, map<string, real>>
    requires RowNoEmptyList(R)
  {
    map h | h in R :: MinEach(R[h])
  }

  /** After the reduction each entry is the lowest cost any file with that key reported for the layer. */
  lemma ReducedIsLowestCost(files: seq<(string, seq<string>)>, toFloat: string -> Option<real>)
    requires AddFiles(Initial(), files, toFloat).Ok?
    ensures WellFormed(AddFiles(Initial(), files, toFloat).value, Hparams)
    ensures var best := MinTable(AddFiles(Initial(), files, toFloat).value);
      forall l, h, v :: l in LayerKeys && h in Hparams && v in best[l][h] ==>
        && best[l][h][v] in CostsOf(files, l, (h, v), toFloat)
        && forall c :: c in CostsOf(files, l, (h, v), toFloat) ==> best[l][h][v] <= c
  {
    Accumulated(files, toFloat);
  }

  // ---------------------------------------------------------------------------
  // The script's state and its two passes over it

  class Analysis {
    var results: CostTable
    var best: ScoreTable

    ghost predicate Valid()
      reads this
    {
      WellFormed(results, Hparams)
    }

    constructor ()
      ensures Valid() && results == Initial() && best == map[]
    {
      results := Initial();
      best := map[];
    }

    /** The file loop: a file whose name the pattern does not match is skipped. */
    method ProcessFiles(files: seq<(string, seq<string>)>, toFloat: string -> Option<real>) returns (outcome: Result<()>)
      requires Valid()
      modifies this`results
      ensures outcome.Ok? ==> Valid() && AddFiles(old(results), files, toFloat) == Ok(results)
      ensures outcome.Err? ==> AddFiles(old(results), files, toFloat) == Err(outcome.error)
      ensures best == old(best)
    {
      ghost var start := results;
      for i := 0 to |files|
        invariant AddFiles(start, files[..i], toFloat) == Ok(results)
      {
        assert files[..i + 1][..i] == files[..i];
        var (name, lines) := files[i];
        var found := FileKey(name);
        if found.None? {
          continue;
        }
        var (hparam, value) := found.value;
        ghost var before := results;
        for j := 0 to |lines|
          invariant AddLines(before, (hparam, value), lines[..j], toFloat) == Ok(results)
        {
          assert lines[..j + 1][..j] == lines[..j];
          var line := lines[j];
          if !StartsWith(line, Marker) {
            continue;
          }
          ghost var prev := results;
          var parsed := ExtractCost(line, toFloat);
          if parsed.Err? {
            FailureAt(start, files, i, before, (hparam, value), j, results, parsed.error, toFloat);
            return Err(parsed.error);
          }
          var (layer, cost) := parsed.value;
          if layer !in results || hparam !in results[layer] {
            FailureAt(start, files, i, before, (hparam, value), j, results, KeyError, toFloat);
            return Err(KeyError);
          }
          var d := results[layer][hparam];
          if value in d {
            d := d[value := d[value] + [cost]];
          } else {
            d := d[value := [cost]];
          }
          results := results[layer := results[layer][hparam := d]];
          assert AddLine(prev, (hparam, value), line, toFloat) == Ok(results) by {
            AppendCases(prev[layer][hparam], value, cost);
            assert AddCost(prev, layer, (hparam, value), cost) == Ok(results);
          }
        }
        assert lines[..|lines|] == lines;
      }
      assert files[..|files|] == files;
      AddFilesSpec(start, Hparams, files, toFloat);
      outcome := Ok(());
    }

    /** The second pass: every list is replaced by its minimum, kept here in `best`. */
    method ReduceToMin()
      requires Valid()
      modifies this
      ensures Valid() && results == old(results)
      ensures best == MinTable(results)
    {
      best := MinOfAll(results);
    }
  }

  /** The loops of lines 105-110 over layers, hyperparameters and values, building the new table beside the old one. */
  method MinOfAll(T: CostTable) returns (best: ScoreTable)
    requires NoEmptyList(T)
    ensures best == MinTable(T)
  {
    best := map[];
    var layers := T.Keys;
    while layers != {}
      invariant layers <= T.Keys
      invariant best.Keys == T.Keys - layers
      invariant forall l :: l in best ==> best[l] == MinRow(T[l])
      decreases layers
    {
      var layer :| layer in layers;
      var row := MinOfRow(T[layer]);
      best := best[layer := row];
      layers := layers - {layer};
    }
  }

  /** The inner loop of the reduction: every dictionary of one layer. */
  method MinOfRow(R: map<string, map<string, seq<real>>>) returns (row: map<string, map<string, real>>)
    requires RowNoEmptyList(R)
    ensures row == MinRow(R)
  {
    row := map[];
    var hparams := R.Keys;
    while hparams != {}
      invariant hparams <= R.Keys
      invariant row.Keys == R.Keys - hparams
      invariant forall h :: h in row ==> row[h] == MinEach(R[h])
      decreases hparams
    {
      var hparam :| hparam in hparams;
      var mins := MinOfEach(R[hparam]);
      assert mins == MinEach(R[hparam]);
      row := row[hparam := mins];
      hparams := hparams - {hparam};
    }
  }

  // ---------------------------------------------------------------------------
  // The ranking of every (layer, hyperparameter) dictionary

  /**
   * The sorting loop: for each layer and each hyperparameter, in dictionary
   * order, sort the items of its dictionary by score and take `max` and `min`
   * of its scores; an empty dictionary, a hyperparameter no file was read for,
   * stops the script with a ValueError.
   */
  method RankAll(best: ScoreTable) returns (r: Result<map<Key, Summary>>)
    ensures r.Err? <==> exists l, h :: l in best && h in best[l] && best[l][h] == map[]
    ensures r.Err? ==> r.error == ValueError
    ensures r.Ok? ==> forall l, h :: (l, h) in r.value <==> l in best && h in best[l]
    ensures r.Ok? ==> forall key :: key in r.value ==>
      key.0 in best && key.1 in best[key.0] && Summarises(best[key.0][key.1], r.value[key])
  {
    var out: map<Key, Summary> := map[];
    var layers := best.Keys;
    while layers != {}
      invariant layers <= best.Keys
      invariant forall l, h :: (l, h) in out <==> l in best && l !in layers && h in best[l]
      invariant forall key :: key in out ==>
        key.0 in best && key.1 in best[key.0] && Summarises(best[key.0][key.1], out[key])
      invariant forall l, h :: l in best && l !in layers && h in best[l] ==> best[l][h] != map[]
      decreases layers
    {
      var layer :| layer in layers;
      var hparams := best[layer].Keys;
      while hparams != {}
        invariant hparams <= best[layer].Keys
        invariant forall l, h :: (l, h) in out <==>
          l in best && h in best[l] && (l !in layers || (l == layer && h !in hparams))
        invariant forall key :: key in out ==>
          key.0 in best && key.1 in best[key.0] && Summarises(best[key.0][key.1], out[key])
        invariant forall l, h :: l in best && h in best[l] && (l !in layers || (l == layer && h !in hparams)) ==>
          best[l][h] != map[]
        decreases hparams
      {
        var hparam :| hparam in hparams;
        var summary := Summarise(best[layer][hparam]);
        if summary.Err? {
          return Err(ValueError);
        }
        out := out[(layer, hparam) := summary.value];
        hparams := hparams - {hparam};
      }
      layers := layers - {layer};
    }
    r := Ok(out);
  }
}
