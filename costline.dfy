/**
 * The per-epoch log line of the pretraining drivers and `extract_cost`, the
 * function both log analysers use to read it back.
 */
module CostLine {
  import opened Wrappers
  import opened PyStr

  /** The prefix that marks a cost line; other lines are skipped by the analysers. */
  const Marker: string := "Pre-training"

  /**
   * `extract_cost(line)`: split on commas, take the third word of the first
   * piece as the layer and the second word of the third piece as the cost.
   * A missing piece or word is an IndexError; `float` failing is a ValueError.
   * `toFloat` stands for Python's `float` on a token.
   */
  function ExtractCost(line: string, toFloat: string -> Option<real>): (r: Result<(string, real)>)
    ensures r.Ok? ==> IsWord(r.value.0)
  {
    var fields := Split(line, ',');
    if |fields| < 3 then Err(IndexError)
    else
      var layerClause := Words(fields[0]);
      var costClause := Words(fields[2]);
      if |layerClause| < 3 || |costClause| < 2 then Err(IndexError)
      else
        match toFloat(costClause[1])
        case None => Err(ValueError)
        case Some(cost) => Ok((layerClause[2], cost))
  }

  /**
   * The line a driver writes after each epoch:
   * `print >> f, 'Pre-training layer %i, epoch %d, cost ' % (i, epoch),` and then
   * `print >> f, numpy.mean(c)`. The trailing comma of the first statement makes
   * the second one put a single space before the mean, and the line ends with a
   * newline. `cost` is the text `str` gives for the mean.
   */
  function WrittenLine(layer: nat, epoch: nat, cost: string): string {
    "Pre-training layer " + Decimal(layer) + ", epoch " + Decimal(epoch) + ", cost " + " " + cost + "\n"
  }

  /** A token `str` can give for a float: no whitespace, no comma. */
  predicate IsCostToken(cost: string) {
    IsWord(cost) && ',' !in cost
  }

  /** The analysers read back the layer number and the cost the driver wrote. */
  lemma ExtractWrittenLine(layer: nat, epoch: nat, cost: string, toFloat: string -> Option<real>)
    requires IsCostToken(cost)
    ensures StartsWith(WrittenLine(layer, epoch, cost), Marker)
    ensures ExtractCost(WrittenLine(layer, epoch, cost), toFloat)
         == match toFloat(cost)
            case Some(c) => Ok((Decimal(layer), c))
            case None => Err(ValueError)
  {
    var line := WrittenLine(layer, epoch, cost);
    var head := "Pre-training layer " + Decimal(layer);
    var tail := " cost  " + cost + "\n";
    WrittenLineSplit(layer, epoch, cost);
    HeadWords(layer);
    TailWords(cost);
    assert line[..|Marker|] == Marker;
  }

  lemma WrittenLineSplit(layer: nat, epoch: nat, cost: string)
    requires IsCostToken(cost)
    ensures Split(WrittenLine(layer, epoch, cost), ',')
         == ["Pre-training layer " + Decimal(layer), " epoch " + Decimal(epoch), " cost  " + cost + "\n"]
  {
    var head := "Pre-training layer " + Decimal(layer);
    var middle := " epoch " + Decimal(epoch);
    var tail := " cost  " + cost + "\n";
    assert ',' !in head && ',' !in middle && ',' !in tail by {
      DecimalIsWord(layer);
      DecimalIsWord(epoch);
    }
    assert WrittenLine(layer, epoch, cost) == head + [','] + middle + [','] + tail;
    SplitThree(head, middle, tail, ',');
  }

  lemma HeadWords(layer: nat)
    ensures Words("Pre-training layer " + Decimal(layer)) == ["Pre-training", "layer", Decimal(layer)]
  {
    DecimalIsWord(layer);
    var l := Decimal(layer);
    var ws := ["Pre-training", "layer", l];
    assert ws[1..] == ["layer", l] && ws[1..][1..] == [l];
    assert Unwords([l]) == l;
    assert Unwords(["layer", l]) == "layer" + " " + l;
    assert Unwords(ws) == "Pre-training" + " " + ("layer" + " " + l);
    assert "Pre-training layer " + l == Unwords(ws);
    WordsUnwords(ws);
  }

  lemma TailWords(cost: string)
    requires IsCostToken(cost)
    ensures Words(" cost  " + cost + "\n") == ["cost", cost]
  {
    var end := cost + "\n";
    assert " cost  " + cost + "\n" == " " + ("cost" + ("  " + end));
    WordsSkipSpace(' ', "cost" + ("  " + end));
    WordsCons("cost", "  " + end);
    WordsSkipSpaces("  ", end);
    WordsCons(cost, "\n");
    WordsSkipSpace('\n', "");
    assert "\n" == ['\n'] + "";
  }

  /** The second comma-separated piece (the epoch clause) never changes the result. */
  lemma EpochIgnored(head: string, epoch1: string, epoch2: string, tail: string, toFloat: string -> Option<real>)
    requires ',' !in head && ',' !in epoch1 && ',' !in epoch2
    ensures ExtractCost(head + "," + epoch1 + "," + tail, toFloat)
         == ExtractCost(head + "," + epoch2 + "," + tail, toFloat)
  {
    SplitAfterTwo(head, epoch1, tail);
    SplitAfterTwo(head, epoch2, tail);
  }

  lemma SplitAfterTwo(head: string, middle: string, tail: string)
    requires ',' !in head && ',' !in middle
    ensures Split(head + "," + middle + "," + tail, ',') == [head, middle] + Split(tail, ',')
  {
    var fields := Split(tail, ',');
    JoinSplit(tail, ',');
    var all := [head, middle] + fields;
    assert all[1..] == [middle] + fields && all[1..][1..] == fields;
    assert Join(all, ',') == head + [','] + (middle + [','] + Join(fields, ','));
    assert head + "," + middle + "," + tail == Join(all, ',');
    SplitJoin(all, ',');
  }

  /**
   * A first clause of fewer than three words, or a third clause of fewer than
   * two words, is an IndexError, whatever the epoch clause and the cost.
   */
  lemma ShortClauseFails(head: string, middle: string, tail: string, toFloat: string -> Option<real>)
    requires ',' !in head && ',' !in middle
    requires |Words(head)| < 3 || |Words(Split(tail, ',')[0])| < 2
    ensures ExtractCost(head + "," + middle + "," + tail, toFloat) == Err(IndexError)
  {
    SplitAfterTwo(head, middle, tail);
  }

  /** A line with fewer than two commas has fewer than three pieces: IndexError. */
  lemma FewCommasFail(line: string, toFloat: string -> Option<real>)
    requires multiset(line)[','] < 2
    ensures ExtractCost(line, toFloat) == Err(IndexError)
  {
    SplitCount(line, ',');
  }

  // What the lines of a log report, independently of any results table.

  /** The layer ids both analysers create their tables with. */
  const LayerKeys: set<string> := {"0", "1", "2", "3"}

  /** The cost a line reports for `layer`, if it is a cost line of that layer. */
  function LineCost(line: string, layer: string, toFloat: string -> Option<real>): seq<real> {
    if StartsWith(line, Marker) && ExtractCost(line, toFloat).Ok? && ExtractCost(line, toFloat).value.0 == layer
    then [ExtractCost(line, toFloat).value.1]
    else []
  }

  /** The costs the lines report for `layer`, in line order. */
  function LineCosts(lines: seq<string>, layer: string, toFloat: string -> Option<real>): seq<real>
    decreases |lines|
  {
    if lines == [] then []
    else LineCosts(lines[..|lines| - 1], layer, toFloat) + LineCost(lines[|lines| - 1], layer, toFloat)
  }

  /** The associativity step of the cost chains, on plain lists. */
  lemma Concat3(z: seq<real>, y: seq<real>, a: seq<real>, b: seq<real>, c: seq<real>, bc: seq<real>)
    requires y == a + b && z == y + c && bc == b + c
    ensures z == a + bc
  {
    assert (a + b) + c == a + (b + c);
  }

  /** A line an analyser gets past: if it is a cost line, it parses and names one of the four layers. */
  predicate LineAccepted(line: string, toFloat: string -> Option<real>) {
    StartsWith(line, Marker) ==> ExtractCost(line, toFloat).Ok? && ExtractCost(line, toFloat).value.0 in LayerKeys
  }

  predicate LinesAccepted(lines: seq<string>, toFloat: string -> Option<real>) {
    forall j :: 0 <= j < |lines| ==> LineAccepted(lines[j], toFloat)
  }
}
