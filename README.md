# convertModel.py: an XGBoost ensemble and its feature scaler as C++ source

`convertModel.py` turns two inputs into a C++ header (`.h`) and a C++ source
file (`.cc`) that compute the same prediction as the original model:

- a gradient-boosted tree ensemble, in the JSON form of XGBoost's `dump_model`;
- the mean and scale of each feature of a standard scaler.

There are three code generators:

- `generate_scaler_code` writes the feature count, the `mean` and `scale`
  arrays and `scale_input`.
- `generate_tree_function` and its inner `recurse` translate one tree into a
  C++ function `tree_i` made of `if`/`else`/`return` statements.
- `generate_tree_code` writes one such function per tree in list order. It then
  writes `predict`, which adds up `tree_0(x) … tree_{n-1}(x)` and applies the
  logistic function.

This project models those generators in Dafny and proves what the generated
text means.

- **`Decimal`** covers the integer text involved:
  - Python's `str()` of an int;
  - Python's `int()`, which turns the split token `"f12"` into feature 12;
  - reading the integer literal back out of the C++ text.
- **`Nodes`** models a tree node exactly as the generator sees the decoded JSON
  dictionary:
  - an optional field per key it reads, plus the other keys;
  - `WellFormed`, the nodes it translates without error;
  - `Walk`, evaluating the tree directly on a feature vector.
- **`BranchCode`** gives the emitted C++ branch code an abstract syntax
  (`Code`), an interpreter (`Exec`), its text (`Lines`) and a parser back from
  text (`ParseText`).
- **`TreeCodegen`** models `recurse` (`Recurse`) and `generate_tree_function`
  (`TreeFunction`). Its central result is a chain of four steps, proved for
  every well-formed tree and every feature vector:
  1. the generated text is the text of the tree's branch code;
  2. that text parses back to that branch code;
  3. running the branch code equals walking the tree;
  4. every malformed tree fails with the error Python raises.
- **`Emitter`** models the two output streams as a class `Streams` with two
  append-only `seq<string>` fields, one element per `write()` call.
  - `GenerateScalerCode` and `GenerateTreeCode` are its methods. The generator's
    loops are `while` loops with invariants.
  - Each method's postcondition states the complete new contents of both
    streams, in terms of specification functions (`ScalerHeader`,
    `ScalerSource`, `RunTrees`, `PredictLines`).
  - Lemmas prove what those functions mean:
    - `N_FEATURES` is `len(mean)`;
    - the array literals read back in input order;
    - the tree functions before the first malformed tree are written, and
      nothing after it;
    - the generated `predict` adds each tree exactly once, in order, and the
      sum equals the sum of walking every tree.

Two things outside the generator are parameters:
- Python's `str()` of a float is a function `fmt: real -> string`.
- The C++ compiler's reading of a floating-point literal is a function
  `read: string -> Option<real>`.

The lemmas assume only three things of these:
- no printed number contains a line break (`NoNewline`);
- no printed number is empty or contains a comma (`ListSafe`);
- each number that the generated code prints reads back as itself. This is
  `ReadsBackIn`, stated for the leaf values and thresholds of the branch code
  (`Numbers`), and `TreesReadBack` for every tree of an ensemble. It is never
  assumed of all reals. `ReadsBackCanHold` proves that for every branch code
  some `fmt` and `read` meet these assumptions, so the lemmas that require them
  are not vacuous.

### Behaviour of the code that the model keeps

- **Partial output on error.** A malformed tree raises only while that tree is
  being translated. By then the scaler code and the functions of all earlier
  trees have already been written, so the output is not all-or-nothing.
  `Streams.GenerateTreeCode` and `Streams.Generate` state exactly that partial
  output.
- **Equal lengths are not checked.** `mean` and `scale` are never compared in
  length, and `N_FEATURES` is `len(mean)` alone.
  `Emitter.Streams.GenerateScalerCode` and `Emitter.HeaderDeclaresFeatureCount`
  state this.
- **Missing scaler keys.** A missing `mean` or `scale` key raises `KeyError`
  before anything is written, and `mean` is looked up first. It is modelled as
  `MissingKey`.
- **Digit limit of `int()`.** Since CPython 3.11 (and 3.7.14, 3.8.14, 3.9.14,
  3.10.7), `int()` refuses a decimal string of more than 4300 digits by default.
  `Decimal.PyInt` refuses it too, so a split token with a longer number fails
  with `BadFeatureIndex`.

## Model

| member | source | states |
|---|---|---|
| Decimal.FeatureIndexOfToken | convertModel.py:32 | `int(token[1:])`: dropping any first character of a token followed by the decimal text of an integer i gives back i when that text has at most 4300 digits, and fails otherwise |
| Decimal.FeatureIndexOfDigits | convertModel.py:32 | a first character followed by a run of digits gives their value exactly when there are at most 4300 of them, and fails otherwise |
| Decimal.FeatureIndexExamples | convertModel.py:32 | `"f12"` gives feature 12 and `"f0"` gives feature 0 |
| Decimal.FeatureIndexWithUnderscore | convertModel.py:32 | `"f1_5"` gives 15, since `int()` accepts single underscores between digits |
| Decimal.FeatureIndexRejects | convertModel.py:32 | `"f"`, `""` and `"fx"` have no feature index (`int()` raises) |
| Nodes.Keys | convertModel.py:49 | the keys of a node: `leaf`, `split`, `split_condition` and `children` are among them exactly when present; every other key is among them, and nothing else is |
| TreeCodegen.Recurse | convertModel.py:28-50 | `recurse` succeeds exactly on well-formed nodes: a leaf, or a node with all three split keys, an integer token tail and exactly two well-formed children |
| TreeCodegen.LeafWins | convertModel.py:29-30 | a node with a `leaf` key translates to exactly `return v;\n` whatever other keys it has, parses back as `return v` when the printed v reads back as v, and evaluates to v |
| TreeCodegen.NodeErrors | convertModel.py:31-50 | the error raised at a node: missing split keys give the unexpected-structure error with the node's keys, a bad token gives its parse error, a child count other than 2 gives that count |
| TreeCodegen.ChildErrors | convertModel.py:42-44 | an error in a child is the split's error; the first child is translated first, so its error wins |
| TreeCodegen.MalformedSubtreeFails | convertModel.py:36-50 | a malformed node anywhere that `recurse` reaches makes the whole translation fail |
| TreeCodegen.RecurseRendersCode | convertModel.py:29-46 | the text of a well-formed node is the rendering of its branch code: `return v;` for a leaf, and for a split `if (x[fid] < thr) {`, the first child, `} else {`, the second child, `}` |
| TreeCodegen.ExecToCode | convertModel.py:41-46 | running a node's branch code on any x equals walking the tree: first child when `x[fid] < thr`, second otherwise |
| TreeCodegen.GeneratedCodeAgreesWithTree | convertModel.py:41-46 | when the numbers it prints read back, the text `recurse` generates parses back as the node's branch code; running that code on any x gives what walking the tree gives, and gives a value whenever every feature index is inside x |
| TreeCodegen.StatementCounts | convertModel.py:30-45 | the generated text has one `return` line per leaf and one `if` line and one `} else {` line per split, hence one `return` line more than `if` lines |
| TreeCodegen.TreeFunction | convertModel.py:52-55 | `generate_tree_function` succeeds exactly on a well-formed tree and otherwise fails with `recurse`'s error |
| TreeCodegen.FunctionLines | convertModel.py:52-55 | the function for tree i has the lines `double tree_i(const double* x) {`, the tree's branch code, `}` and a blank line |
| TreeCodegen.GeneratedFunctionReadsBack | convertModel.py:52-55 | the function for tree i parses back as the number i and the tree's branch code, when the numbers the tree's code prints read back |
| TreeCodegen.TreeNamesDistinct | convertModel.py:52 | different tree numbers give different function names |
| BranchCode.ParseRendered | convertModel.py:30-45 | any branch code, rendered as the generator renders it, parses back as the same code when every number it prints reads back as itself |
| BranchCode.ReadsBackCanHold | convertModel.py:30-41 | for every branch code there are a float printer without line breaks and a reader under which each of its printed numbers reads back, so the read-back assumption can always be met |
| Emitter.SplitJoin | convertModel.py:19-20 | `", ".join` of a non-empty list of comma-free items, cut at each `", "`, gives the list back |
| Emitter.ReadArrayLiteral | convertModel.py:19-20 | an array literal `{…}` lists the printed values in input order, with nothing lost or added (the empty list included) |
| Emitter.HeaderDeclaresFeatureCount | convertModel.py:7-10 | the `N_FEATURES` line of the header declares the number it was given, which `GenerateScalerCode` takes from `len(mean)` alone |
| Emitter.ArraysInInputOrder | convertModel.py:19-20 | the `mean` and `scale` lines of the source list the printed values of each list in input order, whatever their lengths |
| Emitter.RunTreesWritten | convertModel.py:63-65 | translating the trees in order writes the functions of the trees before the first malformed one, each numbered by its position, and stops with that tree's error |
| Emitter.RunTreesStops | convertModel.py:63-65 | after the first failure nothing more is written |
| Emitter.RunTreesSucceeds | convertModel.py:63-65 | the loop over trees completes exactly when every tree is well formed |
| Emitter.ScoreLinesCallEachTree | convertModel.py:70-71 | `predict` has exactly n `score += tree_i(x);` lines, calling tree 0 to n-1 in order |
| Emitter.PredictSumsTrees | convertModel.py:63-71 | when every tree is well formed and the numbers of every tree read back, reading the tree functions and score lines back from the generated source and adding up the called functions on any x gives the sum of walking every tree on x |
| Emitter.Streams.WriteScalerHeader | convertModel.py:9-14 | appends the six header lines for n features and leaves the source unchanged |
| Emitter.Streams.WriteScalerSource | convertModel.py:16-25 | appends the eight source lines and leaves the header unchanged |
| Emitter.Streams.GenerateScalerCode | convertModel.py:4-25 | a missing `mean` (checked first) or `scale` fails with nothing written; otherwise the exact header and source lines are appended and nothing else changes |
| Emitter.Streams.WritePredict | convertModel.py:68-74 | appends the `predict` function for n trees to the source: open, `score = 0.0`, one score line per tree in order, the logistic line, return, close |
| Emitter.Streams.GenerateTreeCode | convertModel.py:57-74 | appends the comment line and the functions of the trees before the first malformed one, then (only if no tree failed) `predict`; the header is unchanged and the status is that tree's error |
| Emitter.Streams.Generate | convertModel.py:96-98 | the scaler code then the tree code on the same two streams; a missing scaler key stops before any tree is translated |

## Left out

- File and OS handling in `generate_cpp_code` (convertModel.py:76-94, 100) is I/O only: path joins, existence checks and the missing-file errors, directory creation, opening files, and the confirmation message. `Streams.Generate` models only the two emitter calls.
- JSON decoding is not modelled. The model starts from decoded values:
  - a node of the `Node` datatype;
  - the scaler document as a `ScalerParams`.
  JSON values of unexpected types are not modelled, for example a `children` that is not a list or a `leaf` that is not a number.
- Python's `str()` of a float is the parameter `fmt`, not a model of its decimal rendering. The C++ reading of a float literal is the parameter `read`.
- The emitted floating-point C++ is fixed text: the scaling `(x[i] - mean[i]) / scale[i]` and the logistic `1.0 / (1.0 + std::exp(-score))`. The model does not compute them. `PredictSumsTrees` stops at the score.
- C++ `double` comparison and addition are exact real arithmetic. NaN, rounding and missing-value routing are not modelled.
- `Walk` and `Exec` return no value when a split reads outside x. In C++ that read is undefined behaviour; the generator does no bounds check.
- Python's `int()` is modelled on ASCII. Non-ASCII digits and Unicode whitespace, which Python also accepts, are not modelled.
- PyInt: applies the default 4300-digit limit of `int()` only. A limit changed by `sys.set_int_max_str_digits` or `PYTHONINTMAXSTRDIGITS` is not modelled, and neither are older Python versions that have no limit.
- Error messages are not modelled as text. `UnexpectedStructure` carries the node's keys as a set, without the order of `list(node.keys())`.
- `models/predictor.h` is a generated header with no logic and is not part of this model.

