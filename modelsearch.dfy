/**
 * utils/parse_modelsearch.py: rank the stacked-autoencoder architectures of a
 * model search by the lowest pretraining cost each reached in each layer.
 * The script's directory listing and file contents are the input `files`:
 * one (file name, lines of the file) pair per directory entry, in listing order.
 */
module ModelSearch {
  import opened Wrappers
  import opened PyStr
  import opened CostLine
  import opened Ranking

  // ---------------------------------------------------------------------------
  // extract_model_name with the pattern ".*?_([\d-]+)\.*"

  /** `[\d-]` */
  predicate IsDigitOrDash(c: char) {
    IsDigit(c) || c == '-'
  }

  /** At `p` stands an underscore followed by a digit or a dash: where `_([\d-]+)` can match. */
  predicate ArchStart(s: string, p: nat) {
    p + 1 < |s| && s[p] == '_' && IsDigitOrDash(s[p + 1])
  }

  /**
   * `_([\d-]+)\.*` tried at index `p`. The greedy group takes the whole run of
   * digits and dashes: `\.*` matches the empty string, so the group never has
   * to give characters back.
   */
  function ModelAt(s: string, p: nat): (r: Option<string>)
    requires p <= |s|
    ensures r.Some? <==> ArchStart(s, p)
    ensures r.Some? ==> var n := |r.value|;
      && p + 1 + n <= |s| && r.value == s[p + 1..p + 1 + n]
      && (forall i :: 0 <= i < n ==> IsDigitOrDash(r.value[i]))
      && (p + 1 + n == |s| || !IsDigitOrDash(s[p + 1 + n]))
  {
    if HasAt(s, p, "_") && Run(s, p + 1, IsDigitOrDash) > 0
    then Some(s[p + 1..p + 1 + Run(s, p + 1, IsDigitOrDash)])
    else None
  }

  /**
   * `.*?` from index `p`: the lazy prefix grows by one non-newline character at
   * a time until the rest of the pattern matches. The result is the group at
   * the first such position.
   */
  function SearchFrom(s: string, p: nat): (r: Option<string>)
    requires p <= |s|
    ensures r.None? <==> forall q :: p <= q < |s| && NoNewline(s, p, q) ==> !ArchStart(s, q)
    decreases |s| - p
  {
    match ModelAt(s, p)
    case Some(m) => Some(m)
    case None =>
      if p < |s| && s[p] != '\n' then SearchFrom(s, p + 1) else None
  }

  /** A match found from `p` is the one at the first position where the pattern can match. */
  lemma {:induction false} SearchFromFirst(s: string, p: nat)
    requires p <= |s|
    requires SearchFrom(s, p).Some?
    ensures exists q :: p <= q < |s| && NoNewline(s, p, q)
                     && (forall q' :: p <= q' < q ==> !ArchStart(s, q'))
                     && SearchFrom(s, p) == ModelAt(s, q)
    decreases |s| - p
  {
    if ModelAt(s, p).Some? {
      assert NoNewline(s, p, p);
    } else {
      SearchFromFirst(s, p + 1);
      var q :| p + 1 <= q < |s| && NoNewline(s, p + 1, q)
               && (forall q' :: p + 1 <= q' < q ==> !ArchStart(s, q'))
               && SearchFrom(s, p + 1) == ModelAt(s, q);
      assert NoNewline(s, p, q);
    }
  }

  /** `extract_model_name(model_name, f)`; `None` when the pattern does not match. */
  function ExtractModelName(name: string): (r: Option<string>)
    ensures r.None? <==> forall q :: 0 <= q < |name| && NoNewline(name, 0, q) ==> !ArchStart(name, q)
    ensures r.Some? ==> exists q :: 0 <= q < |name| && NoNewline(name, 0, q)
                          && (forall q' :: 0 <= q' < q ==> !ArchStart(name, q'))
                          && r == ModelAt(name, q)
  {
    var r := SearchFrom(name, 0);
    if r.Some? then SearchFromFirst(name, 0); r else r
  }

  /**
   * A name of the documented shape `<prefix>_<architecture><rest>`, whose prefix
   * has no newline and no underscore followed by a digit or dash, yields the
   * architecture.
   */
  lemma ArchitectureOfName(prefix: string, arch: string, rest: string)
    requires NoNewline(prefix, 0, |prefix|)
    requires forall i :: 0 <= i < |prefix| - 1 ==> !(prefix[i] == '_' && IsDigitOrDash(prefix[i + 1]))
    requires |arch| > 0 && forall i :: 0 <= i < |arch| ==> IsDigitOrDash(arch[i])
    requires rest == [] || !IsDigitOrDash(rest[0])
    ensures ExtractModelName(prefix + "_" + arch + rest) == Some(arch)
  {
    var s := prefix + "_" + arch + rest;
    var p := |prefix|;
    assert ModelAt(s, p) == Some(arch) by {
      ModelAtArchitecture(prefix, arch, rest);
    }
    assert s[..p] == prefix && s[p] == '_' by {
      assert s == prefix + ("_" + arch + rest);
    }
    PrefixClear(prefix, s);
    FirstMatchAt(s, p, arch);
  }

  /** No match can start inside a prefix of the documented shape that an underscore follows. */
  lemma PrefixClear(prefix: string, s: string)
    requires NoNewline(prefix, 0, |prefix|)
    requires forall i :: 0 <= i < |prefix| - 1 ==> !(prefix[i] == '_' && IsDigitOrDash(prefix[i + 1]))
    requires |prefix| < |s| && s[..|prefix|] == prefix && s[|prefix|] == '_'
    ensures NoNewline(s, 0, |prefix|) && forall i :: 0 <= i < |prefix| ==> !ArchStart(s, i)
  {
    assert forall i :: 0 <= i < |prefix| ==> s[i] == prefix[i];
  }

  /** When the pattern first can match at `p`, before any newline, the architecture found there is the result. */
  lemma FirstMatchAt(s: string, p: nat, m: string)
    requires p < |s| && NoNewline(s, 0, p)
    requires forall i :: 0 <= i < p ==> !ArchStart(s, i)
    requires ModelAt(s, p) == Some(m)
    ensures ExtractModelName(s) == Some(m)
  {
    var r := ExtractModelName(s);
    assert r.Some?;
    var q :| 0 <= q < |s| && NoNewline(s, 0, q)
             && (forall q' :: 0 <= q' < q ==> !ArchStart(s, q'))
             && r == ModelAt(s, q);
    assert q == p;
  }

  lemma ModelAtArchitecture(prefix: string, arch: string, rest: string)
    requires |arch| > 0 && forall i :: 0 <= i < |arch| ==> IsDigitOrDash(arch[i])
    requires rest == [] || !IsDigitOrDash(rest[0])
    ensures ModelAt(prefix + "_" + arch + rest, |prefix|) == Some(arch)
  {
    var s := prefix + "_" + arch + rest;
    var p := |prefix|;
    assert s == prefix + ("_" + arch + rest);
    assert s[p] == '_' && s[p + 1] == arch[0];
    assert ArchStart(s, p);
    var m := ModelAt(s, p).value;
    var n := |m|;
    forall i | 0 <= i < |arch| ensures s[p + 1 + i] == arch[i] { }
    assert rest != [] ==> s[p + 1 + |arch|] == rest[0];
    assert n == |arch|;
    assert m == s[p + 1..p + 1 + |arch|] == arch;
  }

  /** The file name of the docstring's example gives its architecture. */
  lemma DocExample(prefix: string, arch: string, rest: string)
    requires prefix == "stacked_denoising_autoencoder" && arch == "800-900-300-50"
    requires rest == ".2013-05-31.08:57:06.721435"
    ensures ExtractModelName(prefix + "_" + arch + rest) == Some(arch)
  {
    ExamplePieces();
    ArchitectureOfName(prefix, arch, rest);
  }

  lemma ExamplePieces()
    ensures var prefix := "stacked_denoising_autoencoder";
      && NoNewline(prefix, 0, |prefix|)
      && forall i :: 0 <= i < |prefix| - 1 ==> !(prefix[i] == '_' && IsDigitOrDash(prefix[i + 1]))
    ensures forall i :: 0 <= i < |"800-900-300-50"| ==> IsDigitOrDash("800-900-300-50"[i])
    ensures !IsDigitOrDash(".2013-05-31.08:57:06.721435"[0])
  {
  }

  // ---------------------------------------------------------------------------
  // The results table

  /** The layer keys the script creates up front, in the order of its OrderedDict. */
  const LayerOrder: seq<string> := ["0", "1", "2", "3"]

  /** layer -> architecture -> the costs read for it, in reading order */
  type CostTable = map<string, map<string, seq<real>>>

  /** layer -> architecture -> lowest cost */
  type ScoreTable = map<string, map<string, real>>

  /** `results = OrderedDict()` with an empty dictionary under each of '0'..'3'. */
  function Initial(): CostTable {
    map l | l in LayerKeys :: map[]
  }

  /** The shape the table keeps: the four layer keys, and no empty list. */
  predicate WellFormed(T: CostTable) {
    T.Keys == LayerKeys && forall l, m :: l in T && m in T[l] ==> |T[l][m]| > 0
  }

  /** The costs recorded for (layer, model); empty when there is no entry. */
  function Get(T: CostTable, layer: string, model: string): seq<real> {
    if layer in T && model in T[layer] then T[layer][model] else []
  }

  /** `results[layer]` is a KeyError for a layer the table lacks; a list is appended to or started. */
  function AddCost(T: CostTable, layer: string, model: string, cost: real): Result<CostTable> {
    if layer !in T then Err(KeyError)
    else if model in T[layer] then Ok(T[layer := T[layer][model := T[layer][model] + [cost]]])
    else Ok(T[layer := T[layer][model := [cost]]])
  }

  /** One line of a model's file: only lines that start with "Pre-training" are read. */
  function AddLine(T: CostTable, model: string, line: string, toFloat: string -> Option<real>): Result<CostTable> {
    if !StartsWith(line, Marker) then Ok(T)
    else
      match ExtractCost(line, toFloat)
      case Err(e) => Err(e)
      case Ok((layer, cost)) => AddCost(T, layer, model, cost)
  }

  /** The lines of a file, in order; the first exception stops the script. */
  function AddLines(T: CostTable, model: string, lines: seq<string>, toFloat: string -> Option<real>): Result<CostTable>
    decreases |lines|
  {
    if lines == [] then Ok(T)
    else
      match AddLines(T, model, lines[..|lines| - 1], toFloat)
      case Err(e) => Err(e)
      case Ok(T1) => AddLine(T1, model, lines[|lines| - 1], toFloat)
  }

  /** The architecture a file is read under: none when its name does not start with "stacked" or does not match the pattern. */
  function FileModel(name: string): Option<string> {
    if !StartsWith(name, "stacked") then None else ExtractModelName(name)
  }

  /** A file of the listing: one without an architecture is skipped. */
  function AddFile(T: CostTable, file: (string, seq<string>), toFloat: string -> Option<real>): Result<CostTable> {
    match FileModel(file.0)
    case None => Ok(T)
    case Some(model) => AddLines(T, model, file.1, toFloat)
  }

  /** The files of the listing, in order. */
  function AddFiles(T: CostTable, files: seq<(string, seq<string>)>, toFloat: string -> Option<real>): Result<CostTable>
    decreases |files|
  {
    if files == [] then Ok(T)
    else
      match AddFiles(T, files[..|files| - 1], toFloat)
      case Err(e) => Err(e)
      case Ok(T1) => AddFile(T1, files[|files| - 1], toFloat)
  }

  // Reference definitions: what the table should hold, without the table.

  /** The costs all files of architecture `model` report for `layer`, in listing and line order. */
  function CostsOf(files: seq<(string, seq<string>)>, layer: string, model: string, toFloat: string -> Option<real>): seq<real>
    decreases |files|
  {
    if files == [] then []
    else
      CostsOf(files[..|files| - 1], layer, model, toFloat) + FileCosts(files[|files| - 1], layer, model, toFloat)
  }

  /** The costs one file reports for `layer` if it is a file of architecture `model`. */
  function FileCosts(file: (string, seq<string>), layer: string, model: string, toFloat: string -> Option<real>): seq<real> {
    if FileModel(file.0) == Some(model) then LineCosts(file.1, layer, toFloat) else []
  }

  /** Every line of every file that is read is accepted. */
  predicate Accepted(files: seq<(string, seq<string>)>, toFloat: string -> Option<real>) {
    forall i :: 0 <= i < |files| && FileModel(files[i].0).Some? ==> LinesAccepted(files[i].1, toFloat)
  }

  lemma AddCostSpec(T: CostTable, layer: string, model: string, cost: real)
    requires WellFormed(T)
    ensures AddCost(T, layer, model, cost).Ok? <==> layer in LayerKeys
    ensures AddCost(T, layer, model, cost).Ok? ==>
      var T1 := AddCost(T, layer, model, cost).value;
      && WellFormed(T1)
      && forall l, m :: Get(T1, l, m) == Get(T, l, m) + (if l == layer && m == model then [cost] else [])
  {
    AddCostShape(T, layer, model, cost);
    if layer in T {
      AddCostExtends(T, layer, model, cost);
    }
  }

  lemma AddCostShape(T: CostTable, layer: string, model: string, cost: real)
    requires WellFormed(T)
    ensures AddCost(T, layer, model, cost).Ok? <==> layer in LayerKeys
    ensures AddCost(T, layer, model, cost).Ok? ==> WellFormed(AddCost(T, layer, model, cost).value)
  {
    if layer in T {
      var T1 := AddCost(T, layer, model, cost).value;
      assert T1.Keys == T.Keys;
    }
  }

  lemma AddCostExtends(T: CostTable, layer: string, model: string, cost: real)
    requires layer in T
    ensures AddCost(T, layer, model, cost).Ok?
    ensures forall l, m ::
      Get(AddCost(T, layer, model, cost).value, l, m) == Get(T, l, m) + (if l == layer && m == model then [cost] else [])
  {
    var T1 := AddCost(T, layer, model, cost).value;
    forall l, m ensures Get(T1, l, m) == Get(T, l, m) + (if l == layer && m == model then [cost] else []) {
      if l == layer && m == model && model !in T[layer] {
        assert Get(T, l, m) == [];
      }
    }
  }

  lemma AddLineSpec(T: CostTable, model: string, line: string, toFloat: string -> Option<real>)
    requires WellFormed(T)
    ensures AddLine(T, model, line, toFloat).Ok? <==> LineAccepted(line, toFloat)
    ensures AddLine(T, model, line, toFloat).Ok? ==>
      var T1 := AddLine(T, model, line, toFloat).value;
      && WellFormed(T1)
      && forall l, m :: Get(T1, l, m) == Get(T, l, m) + (if m == model then LineCost(line, l, toFloat) else [])
  {
    if StartsWith(line, Marker) {
      match ExtractCost(line, toFloat)
      case Err(e) =>
      case Ok((layer, cost)) =>
        AddCostSpec(T, layer, model, cost);
        assert forall l :: LineCost(line, l, toFloat) == if l == layer then [cost] else [];
    }
  }

  lemma {:induction false} AddLinesSpec(T: CostTable, model: string, lines: seq<string>, toFloat: string -> Option<real>)
    requires WellFormed(T)
    ensures AddLines(T, model, lines, toFloat).Ok? <==> LinesAccepted(lines, toFloat)
    ensures AddLines(T, model, lines, toFloat).Ok? ==>
      var T1 := AddLines(T, model, lines, toFloat).value;
      && WellFormed(T1)
      && forall l, m :: Get(T1, l, m) == Get(T, l, m) + (if m == model then LineCosts(lines, l, toFloat) else [])
    decreases |lines|
  {
    if lines != [] {
      var init, last := lines[..|lines| - 1], lines[|lines| - 1];
      AddLinesSpec(T, model, init, toFloat);
      assert forall j :: 0 <= j < |init| ==> init[j] == lines[j];
      match AddLines(T, model, init, toFloat)
      case Err(e) =>
      case Ok(T1) =>
        AddLineSpec(T1, model, last, toFloat);
        if AddLine(T1, model, last, toFloat).Ok? {
          var T2 := AddLine(T1, model, last, toFloat).value;
          forall l, m ensures Get(T2, l, m) == Get(T, l, m) + (if m == model then LineCosts(lines, l, toFloat) else []) {
            if m == model {
              var a, b, c := Get(T, l, m), LineCosts(init, l, toFloat), LineCost(last, l, toFloat);
              assert LineCosts(lines, l, toFloat) == b + c;
              Concat3(Get(T2, l, m), Get(T1, l, m), a, b, c, LineCosts(lines, l, toFloat));
            }
          }
        }
    }
  }

  lemma AcceptedSnoc(files: seq<(string, seq<string>)>, toFloat: string -> Option<real>)
    requires files != []
    ensures Accepted(files, toFloat) <==>
      && Accepted(files[..|files| - 1], toFloat)
      && (FileModel(files[|files| - 1].0).Some? ==> LinesAccepted(files[|files| - 1].1, toFloat))
  {
    var init := files[..|files| - 1];
    assert forall i :: 0 <= i < |init| ==> init[i] == files[i];
  }

  lemma AddFileSpec(T: CostTable, file: (string, seq<string>), toFloat: string -> Option<real>)
    requires WellFormed(T)
    ensures AddFile(T, file, toFloat).Ok? <==> (FileModel(file.0).Some? ==> LinesAccepted(file.1, toFloat))
    ensures AddFile(T, file, toFloat).Ok? ==>
      var T1 := AddFile(T, file, toFloat).value;
      && WellFormed(T1)
      && forall l, m :: Get(T1, l, m) == Get(T, l, m) + FileCosts(file, l, m, toFloat)
  {
    match FileModel(file.0)
    case None =>
    case Some(model) =>
      AddLinesSpec(T, model, file.1, toFloat);
  }

  lemma {:induction false} AddFilesSpec(T: CostTable, files: seq<(string, seq<string>)>, toFloat: string -> Option<real>)
    requires WellFormed(T)
    ensures AddFiles(T, files, toFloat).Ok? <==> Accepted(files, toFloat)
    ensures AddFiles(T, files, toFloat).Ok? ==>
      var T1 := AddFiles(T, files, toFloat).value;
      && WellFormed(T1)
      && forall l, m :: Get(T1, l, m) == Get(T, l, m) + CostsOf(files, l, m, toFloat)
    decreases |files|
  {
    if files != [] {
      var init, last := files[..|files| - 1], files[|files| - 1];
      AddFilesSpec(T, init, toFloat);
      AcceptedSnoc(files, toFloat);
      var r1 := AddFiles(T, init, toFloat);
      if r1.Ok? {
        AddFileSpec(r1.value, last, toFloat);
      }
    }
  }

  /**
   * After the file loop, `results[layer][model]` exists exactly when some line of
   * a file of that architecture reported a cost for the layer, and it lists those
   * costs in listing and line order. The loop gets through the files exactly
   * when every cost line it reads parses and names one of the four layers.
   */
  lemma Accumulated(files: seq<(string, seq<string>)>, toFloat: string -> Option<real>)
    ensures AddFiles(Initial(), files, toFloat).Ok? <==> Accepted(files, toFloat)
    ensures AddFiles(Initial(), files, toFloat).Ok? ==>
      var T := AddFiles(Initial(), files, toFloat).value;
      && WellFormed(T)
      && forall l, m :: l in LayerKeys ==>
           && (m in T[l] <==> CostsOf(files, l, m, toFloat) != [])
           && (m in T[l] ==> T[l][m] == CostsOf(files, l, m, toFloat))
  {
    AddFilesSpec(Initial(), files, toFloat);
    if AddFiles(Initial(), files, toFloat).Ok? {
      var T := AddFiles(Initial(), files, toFloat).value;
      forall l, m | l in LayerKeys
        ensures (m in T[l] <==> CostsOf(files, l, m, toFloat) != [])
        ensures (m in T[l] ==> T[l][m] == CostsOf(files, l, m, toFloat))
      {
        assert Get(Initial(), l, m) == [];
        assert Get(T, l, m) == CostsOf(files, l, m, toFloat);
      }
    }
  }

  /** Files whose names do not start with "stacked" change nothing, wherever they stand. */
  lemma {:induction false} OtherFilesIgnored(T: CostTable, files: seq<(string, seq<string>)>, others: seq<(string, seq<string>)>, toFloat: string -> Option<real>)
    requires forall i :: 0 <= i < |others| ==> !StartsWith(others[i].0, "stacked")
    ensures AddFiles(T, files + others, toFloat) == AddFiles(T, files, toFloat)
    decreases |others|
  {
    if others == [] {
      assert files + others == files;
    } else {
      var init := others[..|others| - 1];
      assert (files + others)[..|files + others| - 1] == files + init;
      OtherFilesIgnored(T, files, init, toFloat);
    }
  }

  // The five lemmas below mirror those of HyperparamTable for this script's
  // table, keyed by architecture instead of (hyperparameter, value).

  /** An exception stops the script: a failing prefix of the lines fails the whole file. */
  lemma {:induction false} LinesFailFrom(T: CostTable, model: string, lines: seq<string>, j: nat, toFloat: string -> Option<real>)
    requires j <= |lines| && AddLines(T, model, lines[..j], toFloat).Err?
    ensures AddLines(T, model, lines, toFloat) == AddLines(T, model, lines[..j], toFloat)
    decreases |lines|
  {
    if j < |lines| {
      var init := lines[..|lines| - 1];
      assert init[..j] == lines[..j];
      LinesFailFrom(T, model, init, j, toFloat);
    } else {
      assert lines[..j] == lines;
    }
  }

  /** An exception stops the script: a failing prefix of the listing fails the whole run. */
  lemma {:induction false} FilesFailFrom(T: CostTable, files: seq<(string, seq<string>)>, i: nat, toFloat: string -> Option<real>)
    requires i <= |files| && AddFiles(T, files[..i], toFloat).Err?
    ensures AddFiles(T, files, toFloat) == AddFiles(T, files[..i], toFloat)
    decreases |files|
  {
    if i < |files| {
      var init := files[..|files| - 1];
      assert init[..i] == files[..i];
      FilesFailFrom(T, init, i, toFloat);
    } else {
      assert files[..i] == files;
    }
  }

  /** An exception on line `j` of file `i` is the outcome of the whole run. */
  lemma FailureAt(T0: CostTable, files: seq<(string, seq<string>)>, i: nat, T1: CostTable, model: string,
                  j: nat, T2: CostTable, e: Exception, toFloat: string -> Option<real>)
    requires i < |files| && FileModel(files[i].0) == Some(model) && j < |files[i].1|
    requires AddFiles(T0, files[..i], toFloat) == Ok(T1)
    requires AddLines(T1, model, files[i].1[..j], toFloat) == Ok(T2)
    requires AddLine(T2, model, files[i].1[j], toFloat) == Err(e)
    ensures AddFiles(T0, files, toFloat) == Err(e)
  {
    LineFailsFile(T1, model, files[i].1, j, T2, e, toFloat);
    assert AddFile(T1, files[i], toFloat) == Err(e);
    FileFailsRun(T0, files, i, T1, e, toFloat);
  }

  /** The exception of line `j` is the outcome of its file. */
  lemma LineFailsFile(T1: CostTable, model: string, lines: seq<string>, j: nat, T2: CostTable, e: Exception, toFloat: string -> Option<real>)
    requires j < |lines|
    requires AddLines(T1, model, lines[..j], toFloat) == Ok(T2)
    requires AddLine(T2, model, lines[j], toFloat) == Err(e)
    ensures AddLines(T1, model, lines, toFloat) == Err(e)
  {
    assert AddLines(T1, model, lines[..j + 1], toFloat) == Err(e) by {
      assert lines[..j + 1][..j] == lines[..j] && lines[..j + 1][j] == lines[j];
    }
    LinesFailFrom(T1, model, lines, j + 1, toFloat);
  }

  /** The exception of file `i` is the outcome of the run. */
  lemma FileFailsRun(T0: CostTable, files: seq<(string, seq<string>)>, i: nat, T1: CostTable, e: Exception, toFloat: string -> Option<real>)
    requires i < |files|
    requires AddFiles(T0, files[..i], toFloat) == Ok(T1)
    requires AddFile(T1, files[i], toFloat) == Err(e)
    ensures AddFiles(T0, files, toFloat) == Err(e)
  {
    assert AddFiles(T0, files[..i + 1], toFloat) == Err(e) by {
      assert files[..i + 1][..i] == files[..i] && files[..i + 1][i] == files[i];
    }
    FilesFailFrom(T0, files, i + 1, toFloat);
  }

  /** The table after the second pass: every list replaced by its minimum. */
  function MinTable(T: CostTable): ScoreTable
    requires WellFormed(T)
  {
    map l | l in T :: MinEach(T[l])
  }

  /** After the reduction each entry is the lowest cost any file of that architecture reported for the layer. */
  lemma ReducedIsLowestCost(files: seq<(string, seq<string>)>, toFloat: string -> Option<real>)
    requires AddFiles(Initial(), files, toFloat).Ok?
    ensures WellFormed(AddFiles(Initial(), files, toFloat).value)
    ensures var best := MinTable(AddFiles(Initial(), files, toFloat).value);
      forall l, m :: l in LayerKeys && m in best[l] ==>
        && best[l][m] in CostsOf(files, l, m, toFloat)
        && forall c :: c in CostsOf(files, l, m, toFloat) ==> best[l][m] <= c
  {
    Accumulated(files, toFloat);
  }

  /** The model of the script's state: the results table during the file loop, and the minima after it. */
  class Analysis {
    var results: CostTable
    var best: ScoreTable

    ghost predicate Valid()
      reads this
    {
      WellFormed(results)
    }

    constructor ()
      ensures Valid() && results == Initial() && best == map[]
    {
      results := Initial();
      best := map[];
    }

    /** The file loop: a file whose name does not start with "stacked" or has no architecture is skipped. */
    method ProcessFiles(files: seq<(string, seq<string>)>, toFloat: string -> Option<real>) returns (outcome: Result<()>)
      requires Valid()
      modifies this`results
      ensures outcome.Ok? ==> Valid() && AddFiles(old(results), files, toFloat) == Ok(results)
      ensures outcome.Err? ==> AddFiles(old(results), files, toFloat) == Err(outcome.error)
      ensures best == old(best)
    {
      ghost var start := results;
      for i := 0 to |files|
        invariant AddFiles(start, files[..i], toFloat) == Ok(results)
      {
        assert files[..i + 1][..i] == files[..i];
        var (name, lines) := files[i];
        if !StartsWith(name, "stacked") {
          continue;
        }
        var found := ExtractModelName(name);
        if found.None? {
          continue;
        }
        var model := found.value;
        ghost var before := results;
        for j := 0 to |lines|
          invariant AddLines(before, model, lines[..j], toFloat) == Ok(results)
        {
          assert lines[..j + 1][..j] == lines[..j];
          var line := lines[j];
          if !StartsWith(line, Marker) {
            continue;
          }
          var parsed := ExtractCost(line, toFloat);
          if parsed.Err? {
            FailureAt(start, files, i, before, model, j, results, parsed.error, toFloat);
            return Err(parsed.error);
          }
          var (layer, cost) := parsed.value;
          if layer !in results {
            FailureAt(start, files, i, before, model, j, results, KeyError, toFloat);
            return Err(KeyError);
          }
          if model in results[layer] {
            results := results[layer := results[layer][model := results[layer][model] + [cost]]];
          } else {
            results := results[layer := results[layer][model := [cost]]];
          }
        }
        assert lines[..|lines|] == lines;
      }
      assert files[..|files|] == files;
      AddFilesSpec(start, files, toFloat);
      outcome := Ok(());
    }

    /** The second pass: every list is replaced by its minimum, kept here in `best`. */
    method ReduceToMin()
      requires Valid()
      modifies this
      ensures Valid() && results == old(results)
      ensures best == MinTable(results)
    {
      var reduced: ScoreTable := map[];
      var todo := results.Keys;
      while todo != {}
        invariant results == old(results) && Valid()
        invariant todo <= results.Keys
        invariant reduced.Keys == results.Keys - todo
        invariant forall l :: l in reduced ==> reduced[l] == MinEach(results[l])
        decreases todo
      {
        var layer :| layer in todo;
        var mins := MinOfEach(results[layer]);
        assert mins == MinEach(results[layer]);
        reduced := reduced[layer := mins];
        todo := todo - {layer};
      }
      best := reduced;
    }
  }

  // ---------------------------------------------------------------------------
  // The top five of each layer

  /**
   * The ranking loop: for each layer in order, sort its items, take `max` of its
   * scores (a ValueError for a layer without models) and print
   * `sorted_layer_results[i]` for i in 0..4 (an IndexError for a layer with
   * fewer than five models).
   */
  method TopFive(best: ScoreTable) returns (r: Result<seq<seq<Item>>>)
    requires best.Keys == LayerKeys
    ensures r.Ok? <==> forall i :: 0 <= i < 4 ==> |best[LayerOrder[i]]| >= 5
    ensures r.Ok? ==> |r.value| == 4 && forall i :: 0 <= i < 4 ==> IsTop(best[LayerOrder[i]], r.value[i], 5)
    ensures r.Err? ==> exists i :: 0 <= i < 4 && |best[LayerOrder[i]]| < 5
                        && (forall i' :: 0 <= i' < i ==> |best[LayerOrder[i']]| >= 5)
                        && r.error == (if |best[LayerOrder[i]]| == 0 then ValueError else IndexError)
  {
    var tops: seq<seq<Item>> := [];
    for i := 0 to 4
      invariant |tops| == i
      invariant forall i' :: 0 <= i' < i ==> |best[LayerOrder[i']]| >= 5 && IsTop(best[LayerOrder[i']], tops[i'], 5)
    {
      var d := best[LayerOrder[i]];
      var summary := Summarise(d);
      if summary.Err? {
        return Err(ValueError);
      }
      var items := summary.value.items;
      PermutationOfItems(d, items);
      if |items| < 5 {
        return Err(IndexError);
      }
      TopOfRanking(d, items, 5);
      tops := tops + [items[..5]];
    }
    r := Ok(tops);
  }
}
