# Metric logging and optimizer selection of the MNIST / CIFAR-10 predictors

`model.py` defines two PyTorch Lightning modules, `MNISTPredictor` and `CIFAR10Predictor`. Apart
from the network itself, they share two pieces of logic, and this project models both:

- **Optimizer selection.** `get_lr` reads `hyperparams.txt` as a literal `{"lr": {name: rate}}`
  and returns `config["lr"][optim]`. `configure_optimizers` builds AdaBelief when the name is
  exactly `"Adabelief"`, and otherwise the `torch.optim` class of that name. Both branches use the
  looked-up rate.
- **Per-step metric protocol.** Each of `training_step`, `validation_step` and `test_step` does
  four things in order:
  1. It reports `<phase>_loss` and `<phase>_acc` to Lightning's `self.log`.
  2. It appends `str(round(loss, 4)) + "\n"` to `manual_logs/<optim lower-cased>_<phase>_loss_<dataset>.txt`.
  3. It appends the accuracy line to the matching `_acc_` file.
  4. It returns the loss.

  `CIFAR10Predictor.training_step` skips step 1.

The project has three modules:

- `LogPaths` (LogPaths.dfy) holds the naming scheme of the log files and of the sink keys. It also
  has a parser, `ParseLogPath`, that recovers the lower-cased name, phase, metric and dataset of a
  log path. From that round trip follow these lemmas:
  - the six paths of one optimizer and dataset are pairwise distinct;
  - paths of the two datasets never coincide;
  - the optimizer name matters only up to letter case.
- `OptimizerConfig` (OptimizerConfig.dfy) covers `get_lr` and `configure_optimizers`. The file
  system is a map from file name to what parsing the file yields. The optimizer is a tagged
  datatype carrying its learning rate. `configure_optimizers` is the same in both classes, so it
  is modelled once.
- `PhaseRunner` (PhaseRunner.dfy) models the steps:
  - The log files are the class `LogStore`. Its `files: map<string, seq<string>>` maps each path to
    the lines written to it. The fixed set `unwritable` holds the paths whose open or write raises.
  - The predictor is the class `Predictor<S>`. Its sink is the sequence `logged` of `(key, value)`
    reports. `S` is the opaque type of loss and accuracy values. `render` stands for
    `str(round(x, 4))`.
  - Each step method is proved against the pure functions `StepWrites` and `SinkReports`.
  - `RunSteps` folds `StepWrites` over a sequence of (loss, accuracy) values. The lemmas about it
    state the append-only properties: exact lines appended, prefix preservation, other files
    untouched, N calls give N lines.

Two facts about the code shape the model:

- Every `self.log` call (model.py:59-60) runs before the first `open`, so a failed write still
  leaves that step's reports in the sink. `RunPhase` appends to `logged` before any write.
- The code raises Python's own exceptions: the open or parse error, `KeyError` and
  `AttributeError`. `OptimizerConfig.Error` has one constructor for each.

## Model

| member | source | states |
|---|---|---|
| `LogPaths.Lower` | model.py:61 | `str.lower` keeps the length, turns each upper-case ASCII letter into its lower-case letter (code point plus 32), leaves no upper-case ASCII letter and leaves every other character unchanged |
| `LogPaths.LogPath` | model.py:61-62 | definition: `manual_logs/` + the lower-cased optimizer name + `_<phase>_<metric>_<dataset>.txt`, the path expression of every step of both classes; `ParseLogPathInverse`, `LogPathInjective` and `LogPathShape` state its properties |
| `LogPaths.SinkKey` | model.py:59-60 | a sink key starts with the phase name, ends with `_` and the metric name, and has nothing in between |
| `LogPaths.ParseLogPathInverse` | model.py:61-62 | decoding a log path gives back the lower-cased optimizer name, the phase, the metric and the dataset it was built from |
| `LogPaths.LogPathInjective` | model.py:101-102 | two log paths are equal if and only if the lower-cased names, phases, metrics and datasets are all equal, so no two different log files of either class share a path |
| `LogPaths.LogPathsDistinct` | model.py:81-82 | for one optimizer and dataset, different (phase, metric) pairs give different paths; in particular a step's loss and accuracy files differ |
| `LogPaths.LogPathShape` | model.py:148-151 | every log path starts with `manual_logs/` and ends with `_mnist.txt` for the MNIST class and `_cifar10.txt` for the CIFAR-10 class |
| `LogPaths.LogPathCaseInsensitive` | model.py:170 | two optimizer names give the same log path if and only if they differ only in letter case |
| `LogPaths.SinkKeyInjective` | model.py:59-60 | the sink keys `<phase>_<metric>` are equal only for equal phase and metric, so the two keys of a step differ and phases share no key |
| `OptimizerConfig.GetLr` | model.py:14-21 | succeeds if and only if the file parses, has key `"lr"` and has the optimizer name under it, and then returns exactly `config["lr"][optim]`; otherwise it returns the parse failure, `KeyError("lr")` or `KeyError(optim)`, in that order of checking |
| `OptimizerConfig.ConfigureOptimizers` | model.py:43-49 | the result is AdaBelief if and only if the name is exactly `"Adabelief"`; otherwise it is the generic class of that very name, which must be known; both branches carry the rate `get_lr` returns; an unknown class name fails with an attribute error; a failed lookup passes its error through; a resolvable name with a configured rate always succeeds |
| `OptimizerConfig.ConfiguredRateRoundTrip` | model.py:44-48 | with a configuration that sets the name's rate, the optimizer is built with exactly that rate, on both branches |
| `OptimizerConfig.MissingRateFails` | model.py:21 | a name that a readable configuration lacks fails with `KeyError(name)` and no optimizer is built |
| `OptimizerConfig.UnknownClassIgnoresConfig` | model.py:47-48 | the class name is resolved before the rate is looked up, so an unknown name fails in the same way whatever the configuration file holds, even a missing one |
| `OptimizerConfig.AdaBeliefCaseSensitive` | model.py:44 | the AdaBelief test is case-sensitive: `"AdaBelief"` goes to the generic branch and fails when `torch.optim` has no such class |
| `PhaseRunner.Appended` | model.py:63-64 | an append-mode write adds its line at the end of that file and changes no other file; a missing file starts empty |
| `PhaseRunner.Line` | model.py:64 | every line written ends in `"\n"` |
| `PhaseRunner.SinkReports` | model.py:59-60 | a reporting step logs `<phase>_loss` with the loss and then `<phase>_acc` with the accuracy, two distinct keys; the CIFAR-10 training step reports nothing |
| `PhaseRunner.WriteBoth` | model.py:63-68 | definition: the two `with open(..., 'a')` blocks on given paths, loss first; `WriteBothOutcome` states its properties |
| `PhaseRunner.WriteBothOutcome` | model.py:63-68 | the step raises at the loss path exactly when it is unwritable, and then no file changes; it succeeds exactly when both paths are writable; otherwise the loss line is appended, the accuracy line too unless its path is unwritable; no other file changes |
| `PhaseRunner.StepWrites` | model.py:61-68 | definition: `WriteBoth` at the step's two log paths |
| `PhaseRunner.StepWritesOutcome` | model.py:61-68 | a step raises exactly when one of its two logs is unwritable, then names one of them that is unwritable, and never changes a file other than its two logs |
| `PhaseRunner.StepAppendsOneLineEach` | model.py:63-68 | a step whose writes succeed appends exactly its loss line to the loss file and its accuracy line to the accuracy file, and leaves every other path unchanged |
| `PhaseRunner.LossWriteFailureWritesNothing` | model.py:63-65 | if the loss write fails, the step raises at the loss path and no file changes; in particular the accuracy file is untouched |
| `PhaseRunner.AccWriteFailureKeepsLossLine` | model.py:66-68 | if only the accuracy write fails, the loss line is already appended, the accuracy file is unchanged and the step raises at the accuracy path |
| `PhaseRunner.StepIsAppendOnly` | model.py:152-157 | whatever fails, each old file is a prefix of the new one and gains at most one line |
| `PhaseRunner.RunWritesAppendsInOrder` | model.py:192-197 | a run of successful writes to two distinct files appends the rendered values of each metric to its file, in call order |
| `PhaseRunner.RunStepsAppendsInOrder` | model.py:172-177 | N successful calls of one phase append exactly N lines to each of its two files: the rendered losses and accuracies, in call order |
| `PhaseRunner.RunWritesLeavesOtherFiles` | model.py:83-88 | a run of writes changes no file besides the two it writes to |
| `PhaseRunner.RunStepsLeavesOtherFiles` | model.py:103-108 | a run of steps of one phase changes no file besides that phase's two logs, whether or not a write fails |
| `PhaseRunner.RunWritesIsAppendOnly` | model.py:155-157 | a run of writes, failing or not, never removes or rewrites a line: each old file is a prefix of the new one |
| `PhaseRunner.RunStepsIsAppendOnly` | model.py:175-177 | a run of steps of one phase is append-only on every file |
| `PhaseRunner.RunWritesSnoc` | model.py:160-178 | one more call after a run does nothing if the run already raised, and otherwise performs the step's two writes on the files the run left |
| `PhaseRunner.RunStepsSnoc` | model.py:160-178 | `RunSteps` of one more value is `StepWrites` of that value applied to the files `RunSteps` left, unless the run already raised |
| `PhaseRunner.LogStore.Append` | model.py:63-65 | opening in mode `'a'` and writing succeeds if and only if the path is writable; on success the line is at the end of that file, on failure nothing changes |
| `PhaseRunner.Predictor.constructor` | model.py:27-29 | the predictor keeps its optimizer name, which defaults to `"Adam"`, and starts with an empty sink |
| `PhaseRunner.Predictor.RunPhase` | model.py:51-69 | the common step body: the sink gains exactly `SinkReports`; the files become `StepWrites` of the old files; the step returns the loss it wrote when both writes succeed, and otherwise raises at the failing path |
| `PhaseRunner.Predictor.TrainingStep` | model.py:140-158 | `training_step` of either class: the writes go to the `train` files; the MNIST class reports `train_loss` and `train_acc`; the CIFAR-10 class (these lines) reports nothing |
| `PhaseRunner.Predictor.ValidationStep` | model.py:160-178 | `validation_step` of either class: reports `val_loss` and `val_acc`, then writes the `val` files, then returns the loss |
| `PhaseRunner.Predictor.TestStep` | model.py:180-198 | `test_step` of either class: reports `test_loss` and `test_acc`, then writes the `test` files, then returns the loss |

## Left out

- The network (`nn.Sequential`, `forward`), `F.cross_entropy`, `torch.argmax` and Lightning's `accuracy` are left out. They are floating-point tensor code in foreign libraries. A step receives its loss and accuracy as opaque values of type `S`.
- The channel reduction (`inputs.mean(1)` or `torch.mean(inputs, 1)`) and `view` are left out. They are tensor operations, and the two spellings do the same thing.
- `round(x, 4)` and `str` of a float are left out as float formatting. `Predictor.render` stands for their composition and is fixed when the predictor is built.
- `ast.literal_eval` and the reading of `hyperparams.txt` are left out as I/O and parsing. A file is `Literal(config)` or `Unreadable`, and a missing name counts as a missing file. The parsed literal is typed as a map of maps of rates. A literal of another shape, whose indexing would raise `TypeError`, is folded into `Unreadable`.
- `getattr(torch.optim, name)` and the construction of the optimizer objects are left out as foreign code. The set of class names in `torch.optim` is the parameter `known`. A name in `known` is assumed to be a constructible optimizer class. Parameter binding (`self.parameters()`) is not modelled.
- The actual `open`, `write` and `close` calls are left out as I/O. A path fails if and only if it is in `LogStore.unwritable`, and that set is fixed for the store's lifetime. A failing open or write leaves the file unchanged. The model does not capture a file that `open(..., 'a')` creates before a later `write` fails, partial writes, or transient failures.
- The Lightning backend behind `self.log` is reduced to appending `(key, value)` to `logged`. Its own options and side effects are not modelled.
- `batch_idx` is left out because it is unused.
- Concurrency is left out: the steps are assumed to run one at a time.
- `LogPaths.Lower`: it lower-cases only the ASCII letters `A` to `Z`. Python's `str.lower` also maps non-ASCII upper-case letters and a few characters to several, so for names with such characters the modelled path differs from the real one.
