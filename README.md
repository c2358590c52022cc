# Training-log analysers and constraint-sampling helpers, in Dafny

This project models three utilities of the screen_clustering repository and
proves properties of the models.

- `utils/parse_hyperparam_search.py` reads the logs of a hyperparameter
  search. It does four things:
  - it takes a hyperparameter name and a value from each log's file name, for
    example `hyperparam_search-learning_rate-1e-05-out`;
  - it collects the cost of every line `Pre-training layer L, epoch E, cost  C`
    into a table indexed by layer, hyperparameter and value;
  - it reduces every list to its minimum;
  - it sorts each dictionary of the table by score.
- `utils/parse_modelsearch.py` does the same for a search over autoencoder
  architectures. It takes the architecture from the file name, for example
  `800-900-300-50`, and reads only files whose names start with `stacked`. It
  reduces every list to its minimum, then lists the top five architectures of
  every layer.
- `utils/constraint_sampling.py` contributes three functions:
  - `extract_one_class` filters the rows of a matrix by label;
  - `estimate_class_sizes` computes the proportion of each distinct label;
  - `draw_pairs` pairs the shuffled first half of the row indices with the
    shuffled second half.

Modules:

- `Wrappers`: `Option`, `Result` and the Python exceptions the scripts can
  raise.
- `PyStr`: the parts of Python 2's `str` the scripts use. These are
  `split(sep)`, `split()`, `startswith` and `%d`.
- `CostLine`: `extract_cost`, which is identical in both scripts, and the line
  the training drivers write.
- `Ranking`: `min`, `max`, `sorted(d.items(), key=...)` and the top-n property.
- `HyperparamSearch`: a hand-written matcher for the hyperparameter search's
  regular expression.
- `HyperparamTable`: the hyperparameter search's table and its two passes.
- `ModelSearch`: the model search's matcher, its table, its two passes and the
  top-five listing.
- `ConstraintSampling`: the three functions above.

The module-level loops of the scripts become methods of a class `Analysis`.
Its field `results` is the table. The methods take the directory listing and
the file contents as a sequence of (file name, lines) pairs. Each loop is
proved against a functional reference definition, for example
`AddFiles(old(results), files, toFloat) == Ok(results)`. Lemmas then state what
that definition holds:

- every list stores the costs of the matching files in listing and line order;
- a key exists exactly when some line reported a cost for it;
- the run fails exactly when some cost line does not parse or names an unknown
  layer or hyperparameter.

For the hyperparameter search these lemmas are about the corrected file loop
of the Findings row, which skips a file whose name the pattern does not match.
The script as written stops at such a file with a TypeError.
`AddFilesAsWritten` models that loop, and its lemmas say when it agrees with
the corrected one.

`float(token)` is the parameter `toFloat: string -> Option<real>`, where `None`
stands for a ValueError. Costs are exact reals.

## Model

| member | source | states |
|---|---|---|
| PyStr.Split | utils/parse_hyperparam_search.py:28 | `s.split(sep)` has at least one piece and no piece holds the separator |
| PyStr.JoinSplit | utils/parse_hyperparam_search.py:28 | joining the pieces of a split with the separator gives back the string |
| PyStr.SplitJoin | utils/parse_hyperparam_search.py:28 | splitting a join of separator-free pieces gives back the pieces |
| PyStr.SplitCount | utils/parse_hyperparam_search.py:28 | a split has one more piece than the string has separators |
| PyStr.SplitThree | utils/parse_hyperparam_search.py:28 | three separator-free pieces joined by two separators split into exactly those three |
| PyStr.Words | utils/parse_hyperparam_search.py:29-30 | every piece of `split()` is a non-empty run without whitespace |
| PyStr.WordsUnwords | utils/parse_hyperparam_search.py:29-30 | `split()` of words joined by single spaces gives back the words |
| PyStr.Run | utils/parse_hyperparam_search.py:44 | the greedy run of a character class from an index: all of its characters are in the class and the next one is not |
| PyStr.Decimal | theano_models/SdA/pretrain_SdA.py:110 | `%d` of a non-negative integer is a non-empty string of digits with no leading zero |
| PyStr.DecimalRoundTrip | theano_models/SdA/pretrain_SdA.py:110 | reading back the digits `%d` wrote gives the number |
| PyStr.DecimalIsWord | theano_models/SdA/pretrain_SdA.py:110 | a `%d` token has no whitespace and no comma |
| CostLine.ExtractCost | utils/parse_hyperparam_search.py:27-33 | a layer that `extract_cost` returns is a single whitespace-free token |
| CostLine.WrittenLine | theano_models/SdA/pretrain_SdA.py:110-111 | defines the line a driver writes; stated by ExtractWrittenLine and WrittenLineSplit |
| CostLine.ExtractWrittenLine | theano_models/SdA/pretrain_SdA.py:110-111 | the line a driver writes starts with "Pre-training"; `extract_cost` returns its layer number as text and `float` of its cost, or the ValueError `float` raises |
| CostLine.WrittenLineSplit | theano_models/SdA/pretrain_SdA.py:110-111 | the written line splits on commas into the layer, epoch and cost clauses |
| CostLine.HeadWords | utils/parse_hyperparam_search.py:29-31 | the layer clause is the words "Pre-training", "layer" and the layer number |
| CostLine.TailWords | utils/parse_hyperparam_search.py:30-32 | the cost clause, with its double space and newline, is the words "cost" and the cost token |
| CostLine.EpochIgnored | utils/parse_hyperparam_search.py:28-32 | the second comma-separated clause never changes the result of `extract_cost` |
| CostLine.ShortClauseFails | utils/parse_hyperparam_search.py:29-31 | a first clause of fewer than three words, or a third clause of fewer than two, is an IndexError |
| CostLine.FewCommasFail | utils/parse_hyperparam_search.py:28-29 | a line with fewer than two commas is an IndexError |
| Ranking.Min | utils/parse_hyperparam_search.py:109 | `min` of a non-empty list is an element of it and no element is smaller |
| Ranking.Max | utils/parse_hyperparam_search.py:119 | `max` of a non-empty list is an element of it and no element is larger |
| Ranking.Insert | utils/parse_hyperparam_search.py:118 | inserting into a list sorted by score keeps it sorted and adds exactly the item |
| Ranking.SortedItems | utils/parse_hyperparam_search.py:118 | `sorted(d.items(), key=lambda t: t[1])` is sorted by score and is a permutation of the items |
| Ranking.PermutationOfItems | utils/parse_hyperparam_search.py:118 | a permutation of the items has one entry per key, each with that key's score, and no key twice |
| Ranking.TopOfRanking | utils/parse_modelsearch.py:94-102 | the first `n` sorted items are `n` distinct entries of the dictionary, ascending, and none scores above an entry left out |
| Ranking.Summarise | utils/parse_hyperparam_search.py:118-120 | ValueError exactly for an empty dictionary; otherwise a sorted permutation of the items, with `min` the first score and `max` the last, bounding every value |
| Ranking.SummaryOfSorted | utils/parse_hyperparam_search.py:119-120 | any sorted permutation of a non-empty dictionary's items, with its `max` and `min`, summarises the dictionary |
| Ranking.SortedEnds | utils/parse_hyperparam_search.py:119-120 | in a sorted list the least score is the first and the greatest is the last |
| Ranking.MinOfEach | utils/parse_modelsearch.py:81-85 | the reduction loop keeps every key and maps it to the minimum of its list |
| HyperparamSearch.MatchAt | utils/parse_hyperparam_search.py:44 | defines the pattern after `.*?`, tried at one index: a dash, then the parameter, value and exponent groups with backtracking; its maximality is stated by MatchIsMaximal |
| HyperparamSearch.SearchFrom | utils/parse_hyperparam_search.py:18-19 | defines `regex.match` of the line-44 pattern with its lazy `.*?`: the first index, before any newline, where the rest matches; stated by SearchFromNone and SearchFromFirst |
| HyperparamSearch.ExponentShorter | utils/parse_hyperparam_search.py:44 | `([\w]+)?-out` cannot match with a group shorter than the full run of word characters |
| HyperparamSearch.ExponentMaximal | utils/parse_hyperparam_search.py:44 | the backtracking exponent group is the maximal word run when "-out" follows it, and is skipped when "-out" follows directly |
| HyperparamSearch.TailAtEnd | utils/parse_hyperparam_search.py:44 | where the value run ends, the tail `-?([\w]+)?-out` reads as its maximal reading |
| HyperparamSearch.TailInsideValue | utils/parse_hyperparam_search.py:44 | inside the value run the tail matches nowhere if it fails at the run's end |
| HyperparamSearch.ValueShorter | utils/parse_hyperparam_search.py:44 | no shorter value group works when the full one does not |
| HyperparamSearch.HparamShorter | utils/parse_hyperparam_search.py:44 | a parameter group shorter than its word run is never followed by a dash |
| HyperparamSearch.ValueMaximal | utils/parse_hyperparam_search.py:44 | the backtracking value group equals the maximal reading |
| HyperparamSearch.HparamMaximal | utils/parse_hyperparam_search.py:44 | the backtracking parameter group equals the maximal reading |
| HyperparamSearch.MatchIsMaximal | utils/parse_hyperparam_search.py:44 | at every index, the engine's backtracking match is the maximal-runs reading |
| HyperparamSearch.SearchFromNone | utils/parse_hyperparam_search.py:18-19 | the lazy `.*?` search fails exactly when the pattern matches at no index before the first newline |
| HyperparamSearch.SearchFromFirst | utils/parse_hyperparam_search.py:18-24 | a match the search finds is the match at the first index where the pattern matches |
| HyperparamSearch.MaximalAtLogName | utils/parse_hyperparam_search.py:44 | in a name built from well-formed groups, the pattern at the dash after the prefix reads back those groups |
| HyperparamSearch.Rejoined | utils/parse_hyperparam_search.py:85-86 | defines the value text: the value group, with the exponent joined back by a dash when there is one |
| HyperparamSearch.FileKey | utils/parse_hyperparam_search.py:84-88 | defines the intended key of a file: (parameter, rejoined value), or none for a name the pattern does not match; stated by LogNameRoundTrip and NameWithoutDash |
| HyperparamSearch.LogNameRoundTrip | utils/parse_hyperparam_search.py:84-86 | `<prefix>-<param_name>-<value>-out`, with a prefix without dashes, yields the parameter name and the value, the exponent of a value in scientific notation rejoined with "-" |
| HyperparamSearch.PlainValueExample | utils/parse_hyperparam_search.py:4 | "hyperparam_search-momentum-0.9-out" gives ("momentum", "0.9") |
| HyperparamSearch.ScientificValueExample | utils/parse_hyperparam_search.py:84-86 | "hyperparam_search-learning_rate-1e-05-out" gives ("learning_rate", "1e-05") |
| HyperparamTable.FileKeyAsWritten | utils/parse_hyperparam_search.py:84 | defines the unpacking as written: a TypeError when the pattern does not match |
| HyperparamTable.AddFileAsWritten | utils/parse_hyperparam_search.py:84-99 | defines one file as written: the TypeError of an unmatched name stops the script |
| HyperparamTable.NameWithoutDash | utils/parse_hyperparam_search.py:84-88 | a name without a dash never matches: as written, a TypeError; as intended, no key |
| HyperparamTable.OtherEntryStopsScript | utils/parse_hyperparam_search.py:84-88 | the entry "notes.txt" raises a TypeError as written, and is skipped with no change as intended |
| HyperparamTable.AsWrittenAgreesOnMatches | utils/parse_hyperparam_search.py:84-88 | on names the pattern matches, the written and the intended file handling agree |
| HyperparamTable.AddFilesAsWritten | utils/parse_hyperparam_search.py:81-99 | defines the file loop as written, the first exception stopping it; related to `AddFiles` by the next four lemmas |
| HyperparamTable.AsWrittenAgreesOnMatchedListing | utils/parse_hyperparam_search.py:81-99 | when the pattern matches every name of the listing, the loop as written and the corrected loop have the same outcome |
| HyperparamTable.AsWrittenFailsFrom | utils/parse_hyperparam_search.py:81-99 | as written, once a prefix of the listing raises, the run's outcome is that exception |
| HyperparamTable.UnmatchedStopsListing | utils/parse_hyperparam_search.py:84 | as written, an unmatched entry whose earlier files got through ends the run with a TypeError |
| HyperparamTable.FirstUnmatchedEntry | utils/parse_hyperparam_search.py:81-99 | as written, the first unmatched entry ends the run with a TypeError whenever the matched files before it get through the corrected loop |
| HyperparamTable.Initial | utils/parse_hyperparam_search.py:50-75 | defines the starting table: layers '0'..'3', each with empty dictionaries for the four hyperparameters; stated by InitialWellFormed and InitialEmpty |
| HyperparamTable.AddCost | utils/parse_hyperparam_search.py:95-98 | defines `results[layer][hparam]` and the append; stated by AddCostSpec, AddCostKeepsShape and AddCostExtends |
| HyperparamTable.AddLine | utils/parse_hyperparam_search.py:91-98 | defines one line: skipped unless it starts with "Pre-training", otherwise parsed and added; stated by AddLineAccepts and AddLineCosts |
| HyperparamTable.AddLines | utils/parse_hyperparam_search.py:91-99 | defines the lines of one file in order, the first exception stopping it; stated by AddLinesAccepts, AddLinesCosts and LinesFailFrom |
| HyperparamTable.AddFile | utils/parse_hyperparam_search.py:84-99 | defines one file with the corrected handling of the Findings row: no key means the file is skipped; stated by AddFileAccepts and AddFileCosts |
| HyperparamTable.AddFiles | utils/parse_hyperparam_search.py:81-99 | defines the corrected file loop in listing order; stated by AddFilesSpec, Accumulated and FilesFailFrom |
| HyperparamTable.AppendSpec | utils/parse_hyperparam_search.py:95-98 | appending a cost adds the value key if new, extends that one list by the cost and changes no other list |
| HyperparamTable.AppendCases | utils/parse_hyperparam_search.py:95-98 | an existing list is appended to and a missing one is started with the cost |
| HyperparamTable.AddCostKeepsShape | utils/parse_hyperparam_search.py:95-98 | a cost added under a known layer and hyperparameter keeps the table's shape |
| HyperparamTable.AddCostExtends | utils/parse_hyperparam_search.py:95-98 | a cost added under a known layer and hyperparameter extends exactly one list by that cost |
| HyperparamTable.AddCostSpec | utils/parse_hyperparam_search.py:95-98 | a KeyError exactly for a layer outside '0'..'3' or an unknown hyperparameter; otherwise the shape is kept and one list is extended |
| HyperparamTable.InitialWellFormed | utils/parse_hyperparam_search.py:50-75 | the sixteen empty dictionaries have the shape the file loop keeps |
| HyperparamTable.AddLineAccepts | utils/parse_hyperparam_search.py:91-98 | a line gets through exactly when it is not a cost line or parses to a known layer in a file of a known hyperparameter; its exception is `extract_cost`'s or a KeyError |
| HyperparamTable.AddLinesAccepts | utils/parse_hyperparam_search.py:91-98 | a file's lines get through exactly when every line is accepted, keeping the shape |
| HyperparamTable.AddFileAccepts | utils/parse_hyperparam_search.py:84-99 | with the corrected file handling of the Findings row, a file gets through exactly when it is skipped or all its lines are accepted |
| HyperparamTable.AddFilesAccepts | utils/parse_hyperparam_search.py:81-99 | the corrected file loop of the Findings row gets through exactly when every read line is accepted, keeping the shape |
| HyperparamTable.OtherLinesIgnored | utils/parse_hyperparam_search.py:91-93 | lines that do not start with "Pre-training" change nothing, wherever they stand |
| HyperparamTable.AddLineCosts | utils/parse_hyperparam_search.py:91-98 | a line that gets through appends the cost it reports for a layer to its file's list and to no other |
| HyperparamTable.AddLinesCosts | utils/parse_hyperparam_search.py:91-98 | a file's lines append, for each layer, exactly the costs they report, in line order |
| HyperparamTable.AddFileCosts | utils/parse_hyperparam_search.py:84-99 | with the corrected file handling of the Findings row, a file appends its reported costs under its key, and nothing when skipped |
| HyperparamTable.AddFilesCosts | utils/parse_hyperparam_search.py:81-99 | the file loop appends to every list the costs of all files with that key, in listing and line order |
| HyperparamTable.AddFilesSpec | utils/parse_hyperparam_search.py:81-99 | the outcome, shape and contents of the corrected file loop of the Findings row, from any well-formed table |
| HyperparamTable.Accumulated | utils/parse_hyperparam_search.py:50-99 | for the corrected file loop of the Findings row, from the initial table: an entry exists exactly when some line reported a cost for it and lists exactly those costs in order; the run fails exactly when some read line is not accepted |
| HyperparamTable.InitialEmpty | utils/parse_hyperparam_search.py:50-75 | the initial table has no costs |
| HyperparamTable.EntriesOf | utils/parse_hyperparam_search.py:95-98 | a table that added some costs to empty lists has an entry exactly where costs were added, holding those costs |
| HyperparamTable.LinesFailFrom | utils/parse_hyperparam_search.py:91-98 | once a line raises, the file's outcome is that exception |
| HyperparamTable.FilesFailFrom | utils/parse_hyperparam_search.py:81-99 | once a file raises, the run's outcome is that exception |
| HyperparamTable.LineFailsFile | utils/parse_hyperparam_search.py:94-98 | the exception of line `j` is the outcome of its file |
| HyperparamTable.FileFailsRun | utils/parse_hyperparam_search.py:81-99 | the exception of file `i` is the outcome of the run |
| HyperparamTable.FailureAt | utils/parse_hyperparam_search.py:94-98 | an exception on line `j` of file `i` is the outcome of the whole run |
| HyperparamTable.MinTable | utils/parse_hyperparam_search.py:105-110 | defines the table after the second pass, every list replaced by its minimum; stated by ReducedIsLowestCost and MinOfAll |
| HyperparamTable.ReducedIsLowestCost | utils/parse_hyperparam_search.py:105-110 | after the reduction each entry is one of the costs reported for its key and no reported cost is lower |
| HyperparamTable.Analysis.ProcessFiles | utils/parse_hyperparam_search.py:81-99 | the corrected file loop of the Findings row changes the table as `AddFiles` does, keeps its shape, leaves `best` alone, and returns the exception that stops it |
| HyperparamTable.Analysis.ReduceToMin | utils/parse_hyperparam_search.py:105-110 | the reduction leaves `results` unchanged and stores every list's minimum in `best` |
| HyperparamTable.MinOfAll | utils/parse_hyperparam_search.py:105-110 | the three nested loops give every list's minimum, under the same keys |
| HyperparamTable.MinOfRow | utils/parse_hyperparam_search.py:106-110 | the loops over one layer give the minimum of each list |
| HyperparamTable.RankAll | utils/parse_hyperparam_search.py:115-124 | a ValueError exactly when some (layer, hyperparameter) dictionary is empty; otherwise one summary per pair, each sorting and bounding its dictionary |
| ModelSearch.ModelAt | utils/parse_modelsearch.py:42 | `_([\d-]+)\.*` matches at an index exactly when "_" and a digit or dash stand there; the group is the maximal run of digits and dashes |
| ModelSearch.SearchFrom | utils/parse_modelsearch.py:20-23 | the lazy search of the line-42 pattern from an index fails exactly when no underscore followed by a digit or dash comes before the first newline |
| ModelSearch.SearchFromFirst | utils/parse_modelsearch.py:20-23 | a match the lazy search finds is the match at the first index where an underscore and a digit or dash stand |
| ModelSearch.ExtractModelName | utils/parse_modelsearch.py:20-23 | `None` exactly when no underscore is followed by a digit or dash before the first newline; otherwise the maximal digit-and-dash run after the earliest such underscore |
| ModelSearch.ArchitectureOfName | utils/parse_modelsearch.py:4 | a name `<prefix>_<architecture><rest>` whose prefix cannot match yields the architecture |
| ModelSearch.PrefixClear | utils/parse_modelsearch.py:42 | no match starts inside such a prefix |
| ModelSearch.FirstMatchAt | utils/parse_modelsearch.py:20-23 | the first matching index, before any newline, gives the result |
| ModelSearch.ModelAtArchitecture | utils/parse_modelsearch.py:42 | at the underscore after the prefix, the group is the whole architecture |
| ModelSearch.DocExample | utils/parse_modelsearch.py:4 | `stacked_denoising_autoencoder_800-900-300-50.2013-05-31.08:57:06.721435` gives "800-900-300-50" |
| ModelSearch.Initial | utils/parse_modelsearch.py:47-51 | defines the starting table: an empty dictionary under each of '0'..'3' |
| ModelSearch.AddCost | utils/parse_modelsearch.py:71-74 | defines `results[layer]` and the append; stated by AddCostSpec, AddCostShape and AddCostExtends |
| ModelSearch.AddLine | utils/parse_modelsearch.py:67-74 | defines one line: skipped unless it starts with "Pre-training", otherwise parsed and added; stated by AddLineSpec |
| ModelSearch.AddLines | utils/parse_modelsearch.py:66-75 | defines the lines of one file in order, the first exception stopping it; stated by AddLinesSpec and LinesFailFrom |
| ModelSearch.FileModel | utils/parse_modelsearch.py:57-64 | defines the architecture a file is read under: none unless the name starts with "stacked" and matches; stated by OtherFilesIgnored and ArchitectureOfName |
| ModelSearch.AddFile | utils/parse_modelsearch.py:56-75 | defines one file: skipped when it has no architecture; stated by AddFileSpec |
| ModelSearch.AddFiles | utils/parse_modelsearch.py:56-75 | defines the file loop in listing order; stated by AddFilesSpec, Accumulated and FilesFailFrom |
| ModelSearch.AddCostShape | utils/parse_modelsearch.py:71-74 | a cost gets through exactly when its layer is '0'..'3', and then the shape is kept |
| ModelSearch.AddCostExtends | utils/parse_modelsearch.py:71-74 | a cost under a known layer extends exactly one list by that cost |
| ModelSearch.AddCostSpec | utils/parse_modelsearch.py:71-74 | a KeyError exactly for a layer outside '0'..'3'; otherwise the shape is kept and one list is extended |
| ModelSearch.AddLineSpec | utils/parse_modelsearch.py:67-74 | a line gets through exactly when accepted, and appends the cost it reports for that layer under the file's architecture |
| ModelSearch.AddLinesSpec | utils/parse_modelsearch.py:66-75 | a file's lines get through exactly when all are accepted, and append their costs in line order |
| ModelSearch.AcceptedSnoc | utils/parse_modelsearch.py:56-75 | a listing is accepted exactly when its prefix is accepted and its last file is skipped or has accepted lines |
| ModelSearch.AddFileSpec | utils/parse_modelsearch.py:56-75 | a file is skipped or appends its reported costs under its architecture |
| ModelSearch.AddFilesSpec | utils/parse_modelsearch.py:56-75 | the file loop's outcome, shape and contents together, from any well-formed table |
| ModelSearch.Accumulated | utils/parse_modelsearch.py:47-75 | from the initial table, an entry exists exactly when some line reported a cost for it and lists exactly those costs in order; the run fails exactly when some read line is not accepted |
| ModelSearch.OtherFilesIgnored | utils/parse_modelsearch.py:57-59 | files whose names do not start with "stacked" change nothing, wherever they stand |
| ModelSearch.LinesFailFrom | utils/parse_modelsearch.py:67-74 | once a line raises, the file's outcome is that exception |
| ModelSearch.FilesFailFrom | utils/parse_modelsearch.py:56-75 | once a file raises, the run's outcome is that exception |
| ModelSearch.LineFailsFile | utils/parse_modelsearch.py:70-74 | the exception of line `j` is the outcome of its file |
| ModelSearch.FileFailsRun | utils/parse_modelsearch.py:56-75 | the exception of file `i` is the outcome of the run |
| ModelSearch.FailureAt | utils/parse_modelsearch.py:70-74 | an exception on line `j` of file `i` is the outcome of the whole run |
| ModelSearch.MinTable | utils/parse_modelsearch.py:81-85 | defines the table after the second pass, every list replaced by its minimum; stated by ReducedIsLowestCost |
| ModelSearch.ReducedIsLowestCost | utils/parse_modelsearch.py:81-85 | after the reduction each entry is one of the costs reported for its architecture and no reported cost is lower |
| ModelSearch.Analysis.ProcessFiles | utils/parse_modelsearch.py:56-75 | the file loop changes the table as `AddFiles` does, keeps its shape, leaves `best` alone, and returns the exception that stops it |
| ModelSearch.Analysis.ReduceToMin | utils/parse_modelsearch.py:81-85 | the reduction leaves `results` unchanged and stores every list's minimum in `best` |
| ModelSearch.TopFive | utils/parse_modelsearch.py:92-102 | success exactly when every layer has at least five architectures, each layer's result being its five best in ascending order; otherwise the first short layer raises ValueError when empty and IndexError when not |
| ConstraintSampling.ClassIndices | utils/constraint_sampling.py:31 | defines `np.nonzero(labels[:,0] == y)[0]`; stated by ClassIndicesSpec and ClassIndicesCount |
| ConstraintSampling.RowsWithLabel | utils/constraint_sampling.py:26-31 | defines the rows of `X` whose label is `y`, in order; SelectedRows and ExtractOneClass state that the filter returns them |
| ConstraintSampling.ClassIndicesSpec | utils/constraint_sampling.py:31 | `np.nonzero(labels[:,0] == y)[0]` lists exactly the positions holding `y`, ascending |
| ConstraintSampling.ClassIndicesCount | utils/constraint_sampling.py:40-41 | there are as many positions as occurrences of the label |
| ConstraintSampling.Take | utils/constraint_sampling.py:31 | `X[idx, :]` holds the rows at the positions `idx`, in that order |
| ConstraintSampling.TakeAppend | utils/constraint_sampling.py:31 | taking the rows of a concatenation of positions concatenates the rows |
| ConstraintSampling.SelectedRows | utils/constraint_sampling.py:31 | the rows at the positions of `y` are the rows labelled `y`, in their original order |
| ConstraintSampling.ExtractOneClass | utils/constraint_sampling.py:26-31 | IndexError exactly when a position labelled `y` has no row; otherwise exactly the rows labelled `y`, in order |
| ConstraintSampling.InsertSorted | utils/constraint_sampling.py:36 | inserting a label into an ascending list of distinct labels keeps it so and adds just that label |
| ConstraintSampling.IncreasingUnique | utils/constraint_sampling.py:36 | an ascending list of distinct labels is fixed by the labels it holds |
| ConstraintSampling.Unique | utils/constraint_sampling.py:36 | `np.unique(labels)` is ascending, with no label twice, and holds exactly the labels present |
| ConstraintSampling.NSamples | utils/constraint_sampling.py:37 | defines `max(labels.shape)` for an N x 1 column: N, or 1 when N is 0 |
| ConstraintSampling.Proportions | utils/constraint_sampling.py:34-42 | defines the result of `estimate_class_sizes`; stated by ProportionsBounded, ProportionsSumToOne and ProportionsOver |
| ConstraintSampling.Shares | utils/constraint_sampling.py:39-41 | one share per label, each the label's count over the sample count |
| ConstraintSampling.EstimateClassSizes | utils/constraint_sampling.py:34-42 | a 1 x k array, one column per distinct label in ascending order, each holding the label's count over the sample count |
| ConstraintSampling.ProportionsBounded | utils/constraint_sampling.py:37-42 | every proportion lies in (0, 1] |
| ConstraintSampling.CountsOfSnoc | utils/constraint_sampling.py:39-41 | one more sample adds one to the count of the distinct labels it is among |
| ConstraintSampling.CountsCover | utils/constraint_sampling.py:39-41 | distinct labels covering every sample count every sample once |
| ConstraintSampling.SumOfShares | utils/constraint_sampling.py:39-41 | the shares of some labels add up to their counts over the sample count |
| ConstraintSampling.ProportionsSumToOne | utils/constraint_sampling.py:37-42 | for a non-empty column of labels the proportions sum to 1 in exact arithmetic |
| ConstraintSampling.ProportionsOver | utils/constraint_sampling.py:36-41 | the proportions are the shares of any ascending list holding exactly the present labels |
| ConstraintSampling.UnevenClasses | utils/constraint_sampling.py:115-118 | the column `[1,1,2,2,2,1,1]` gives 4/7 and 3/7 |
| ConstraintSampling.DistinctLabelsShareEqually | utils/constraint_sampling.py:34-42 | a column of distinct ascending labels gives each label the share 1/N |
| ConstraintSampling.OneOfEach | utils/constraint_sampling.py:114-116 | the column `[1,2,3]` gives a third to each label |
| ConstraintSampling.Shuffle | utils/constraint_sampling.py:55-56 | `np.random.shuffle` leaves a permutation of the array's elements |
| ConstraintSampling.Range | utils/constraint_sampling.py:47 | `np.arange(lo, hi)` holds `lo`, ..., `hi - 1` in order |
| ConstraintSampling.RangeDistinct | utils/constraint_sampling.py:47 | `np.arange(lo, hi)` holds each index in [lo, hi) once and nothing else |
| ConstraintSampling.Halves | utils/constraint_sampling.py:47-52 | after splitting at `n div 2` and truncating to the common size, the halves are the first `n div 2` indices and the next `n div 2` |
| ConstraintSampling.ToArray | utils/constraint_sampling.py:53-54 | a fresh array holding the sequence |
| ConstraintSampling.Hstack | utils/constraint_sampling.py:57 | `np.hstack` of two columns: one row per index, the first column then the second |
| ConstraintSampling.DrawPairs | utils/constraint_sampling.py:44-58 | `n div 2` pairs; the first column is a permutation of 0..k-1 and the second of k..2k-1, for k = `n div 2` |
| ConstraintSampling.HalvesPaired | utils/constraint_sampling.py:47-57 | in every pair, first < `n div 2` <= second < `2 (n div 2)` <= n; no index repeats in a column; for odd `n` the index n-1 never appears |

## Left out

- Directory listing, `open`, `os.chdir` and `sys.argv`: the listing and the file contents are the input `files`.
- `float` on a token: the parameter `toFloat`. Costs are exact reals, and `numpy.mean` and the way `str` prints a float are not modelled.
- The `print` statements, the mean of each dictionary and the "Number of models" line: not modelled. The values they would print are the results of `Summarise` and `TopFive`.
- The in-place overwrite of each list with its minimum (parse_hyperparam_search.py:110, parse_modelsearch.py:85): a Dafny map has one value type, so the minima go into a second field `best` and `results` is left unchanged.
- Dictionary iteration order: keys are taken in an arbitrary order.
- HyperparamTable.Analysis.ProcessFiles: models the corrected file loop of the Findings row, which skips a file whose name does not match. The script as written raises a TypeError there. That loop is the function `AddFilesAsWritten`, with no method of its own.
- Non-finite costs: `toFloat` gives a real or a ValueError, so "nan" and "inf" are outside the model. Python's `float("nan")` succeeds, and `min`, `max` and `sorted` then depend on the order of the list.
- Floating-point arithmetic in `constraint_sampling.py`: the proportions are exact rationals, so ProportionsSumToOne holds exactly. The source's float divisions need not sum to exactly 1; ten shares of 0.1 add up to 0.9999999999999999.
- Ranking.SortedItems: Python's stable `sorted` keeps equal scores in dictionary order. The model orders equal scores arbitrarily, and its contract states only sortedness and permutation.
- `OrderedDict` order matters only for the top-five listing, which walks the layers '0'..'3' in that order (`LayerOrder`).
- The regular expressions: modelled only as hand-written matchers for the two patterns, not as a regular-expression engine. Like `re.match`, the matcher does not require the name to end at "-out". The round-trip lemmas are stated for names of the documented shape, which end there.
- CostLine.ExtractCost: its own contract says only that the layer is a token. Its behaviour is stated by ExtractWrittenLine, EpochIgnored, ShortClauseFails and FewCommasFail.
- ModelSearch.TopFive: requires the layers '0'..'3', which is the table's shape after the file loop; any other table is not an input the script can hold.
- The pylab imports and `numpy` as a library: not modelled.
- The labels in `constraint_sampling.py`: modelled as the column `labels[:,0]`, a sequence of integers. The data rows are sequences of reals.
- `np.random.shuffle`: an arbitrary permutation, with no model of the random stream.
- `np.floor(n/2)` as an index: Python 2 floors the integer quotient and old numpy accepts the float index. This is modelled as `n div 2`.
- `sample_similar`, `labels_to_constraints` and `sample_differences`: not modelled. They are broken or stubbed in the source: they use the undefined `zeros` (line 74) and `similar_contraints` (line 24), and `sample_differences` is `pass` (line 100).
- The training drivers and the plot scripts are not part of this model. The line the drivers write (pretrain_SdA.py:110-111) is modelled as `CostLine.WrittenLine`.

## Findings

| source | as written | input that shows it | evidently intended | confidence | as-written member | corrected member |
|---|---|---|---|---|---|---|
| utils/parse_hyperparam_search.py:84-88 | `extract_model_name` returns None for a name the pattern does not match. Unpacking that None into three names raises a TypeError, so the `if hparam is None: continue` on line 87 can never skip a file. | a directory entry named "notes.txt" | a file whose name does not match is skipped | not executed | HyperparamTable.OtherEntryStopsScript | HyperparamTable.AddFile |
