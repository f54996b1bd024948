# RooMinimizerOpt: parameter synchronization and objective evaluation

A model of the adapter that sits between a RooFit likelihood fit and the
external minimizer engine (ROOT's `Fit::Fitter`). The adapter keeps two
ordered parameter lists: a constant list and a floating list. It keeps
them in step with the engine's positional settings vector. It caches the
committed coordinate values so that only changed coordinates are written
into the model. It also applies a penalty policy when the model reports
an evaluation error. The driver operations (minimize, migrad, improve,
hesse, minos) re-synchronize before every engine call and record the
status the engine ends with.

Modules:

- `Params` (params.dfy): a named parameter (`Param`), one entry of the
  engine's settings vector (`ParamSetting`), and the pure default-step
  rule for a parameter without an error estimate.
- `SyncSpec` (sync_spec.dfy): the two passes of `Synchronize`, written as
  functions that follow the loops of `RooMinimizerFcnOpt::Synchronize`
  index by index (`MigrateLoop`,
  `ReconcileLoop`, built from `MigrateStep`/`ReconcileStep`, `NewEntry`
  and `UpdateEntry`), plus lemmas about a whole pass.
- `EvalSpec` (eval_spec.dfy): the coordinate write-back at the start of
  `DoEval` (`CommitLoop`), the state a run of evaluations leaves behind
  (`AtCache`), the write-back of an engine result (`BackPropLoop`), and
  their lemmas.
- `Engine` (engine.dfy): the engine's configuration as a class. Its three
  operations take their outcome (`EngineRun`) from outside.
- `MinimizerFcn` (fcn.dfy): the statistical model (`Model`: parameters,
  error flag and log, optimizer notifications) and the adapter class
  `FcnOpt` with `Synchronize`, `InitStdVects` and `DoEval`. Each method's
  postcondition ties its new state to the spec functions above.
- `Minimizer` (minimizer.dfy): the driver class `MinimizerOpt` and the
  selection of Minos parameter indices. Every engine operation evaluates
  the objective at the engine's trial points and then writes the engine's
  result back into the floating parameters; only their values and errors
  change.

Parameters are identified by name. The model's live parameter state is
`Model.params`; the two lists hold names, and the reference lists hold
snapshots (`Param` values). Exceptions become `Call.Throws` or an `ok`
result that is false.

Behaviour of the code reproduced as written:

- In the migration loop the index always advances, also right after a
  removal. So the entry that shifts into the freed slot is not examined
  in that pass (`SyncSpec.MigrationSkipsShiftedEntry`).
- A floating entry that is not a `RooRealVar` is skipped without touching
  the settings vector. `Synchronize` then fails in `InitStdVects`, which
  raises on such an entry. The removal branch at
  src/RooMinimizerOpt.cc:497-504 cannot be reached, because its entry has
  already passed the `dynamic_cast`. It is not modelled.
- In this model a new settings entry is free (not fixed) even for a
  constant parameter, and the next synchronization fixes it. ROOT's own
  `ParameterSettings` constructor with limits may already fix such an
  entry (see the `ParameterSettings` line under "Left out").
- A floating parameter without bounds keeps whatever limits its existing
  entry had (`SyncSpec.UnboundedKeepsOldLimits`).
- Migration goes one way only, from the constant list to the floating
  list. A floating parameter that has become constant stays on the
  floating list; only its settings entry is fixed, at the parameter's
  value (`SyncSpec.SettingsTrackParameters`).
- `Synchronize` always returns false (0).
- `edm()` tests the base class's shared fitter pointer. The constructor
  clears that pointer (src/RooMinimizerOpt.cc:17), and nothing in this
  file sets it again. So in this model `Edm` raises.

## Model

| member | source | states |
|---|---|---|
| Params.DefaultStepUnbounded | src/RooMinimizerOpt.cc:517-534 | without both bounds the default step is 1 |
| Params.DefaultStep | src/RooMinimizerOpt.cc:515-534 | the default step is zero only for a degenerate two-sided range (minimum equal to maximum): the restore after a zero trim guarantees it otherwise |
| Params.StepOf | src/RooMinimizerOpt.cc:491-543 | a constant parameter is offered step 0; a floating one never gets step 0 unless its two-sided range is degenerate |
| Params.DefaultStepInRange | src/RooMinimizerOpt.cc:515-534 | for a value inside a proper range the default step is positive and at most a tenth of the range |
| Params.DefaultStepWindow | src/RooMinimizerOpt.cc:518-530 | two default steps either way stay inside the bounds unless the value sits on a bound, where the zero trim is undone |
| Params.AtMostOneTrim | src/RooMinimizerOpt.cc:521-525 | with min < max the upper and lower trims never both apply, whatever the value; the upper-first order matters only for an inverted range, min > max |
| Params.DefaultStepExamples | src/RooMinimizerOpt.cc:515-534 | bounds [0,10]: step 1 at 5, 0.25 at 9.5 and at 0.5, restored to 1 on the bound 10; inverted bounds min 10, max 0 at 3: -1.5 from the upper trim, where the lower one would give -3.5 |
| SyncSpec.Snapshot | src/RooMinimizerOpt.cc:480-481 | the refreshed reference list holds, position by position, the current state of the constant list's parameters |
| SyncSpec.MigrateStep | src/RooMinimizerOpt.cc:442-478 | one iteration keeps both lists made of known parameters (its full effect is MigrateStepEffect) |
| SyncSpec.MigrateLoop | src/RooMinimizerOpt.cc:442-478 | the whole pass keeps both lists made of known parameters (its full effect is MigratePartition) |
| SyncSpec.MovedFromStep | src/RooMinimizerOpt.cc:442-478 | one iteration only moves a no-longer-constant real parameter from the constant list to the end of the floating list, with its snapshot, raising the set flag and the dimension |
| SyncSpec.MigratePartition | src/RooMinimizerOpt.cc:442-478 | the whole pass keeps the floating list as a prefix, adds only non-constant real parameters taken out of the constant list (multiset balance), grows the dimension by the number moved, and raises the set flag exactly when something moved |
| SyncSpec.MigrateNoneFloating | src/RooMinimizerOpt.cc:442-478 | when every constant-list parameter is still constant nothing moves, and the value flag is raised exactly when some examined parameter differs from its snapshot |
| SyncSpec.MigrateStepEffect | src/RooMinimizerOpt.cc:442-478 | one iteration exactly: an unexamined position changes nothing; an examined non-constant parameter moves with its snapshot to the end of the floating list, raising the set flag and the dimension; an examined constant one changes only the value flag; an examined position raises the value flag exactly when it was raised or the value differs from the snapshot |
| SyncSpec.MigrateFlagsStay | src/RooMinimizerOpt.cc:442-478 | the pass never lowers a flag once raised |
| SyncSpec.MigrateFirstExamined | src/RooMinimizerOpt.cc:442-478 | when every examined position before k holds a constant parameter and position k holds a non-constant one, that parameter is the first one appended to the floating list, with its snapshot, and a differing value raises the value flag |
| SyncSpec.MigrateMovesNothing | src/RooMinimizerOpt.cc:442-478 | the floating list keeps its length exactly when every examined constant-list parameter is still constant (both directions) |
| SyncSpec.MigrateKeepsDistinct | src/RooMinimizerOpt.cc:442-478 | a pass over distinct lists leaves them distinct, and no moved parameter stays on the constant list |
| SyncSpec.MigrationSkipsShiftedEntry | src/RooMinimizerOpt.cc:442-459 | with two consecutive parameters that stopped being constant only the first migrates in one pass |
| SyncSpec.NewEntry | src/RooMinimizerOpt.cc:546-565 | an appended entry carries the parameter's name and value and is free |
| SyncSpec.NewEntryShape | src/RooMinimizerOpt.cc:546-565 | an appended entry carries the name, value and step, is free, and has a limit exactly on each bounded side (both, lower only, upper only, none) |
| SyncSpec.UpdateEntry | src/RooMinimizerOpt.cc:568-629 | an updated entry keeps its name, holds the parameter's value, and is fixed exactly when the parameter is constant |
| SyncSpec.UpdateEntryAgrees | src/RooMinimizerOpt.cc:568-629 | an updated entry holds the parameter's value and is fixed exactly when the parameter is constant; a floating entry gets its step and its bounds; a constant one changes only value and fixed flag; the set flag is raised exactly on a fix or release, the value flag exactly on a moved fixed value; a floating entry whose value, step and limits already agree only loses its fixed flag |
| SyncSpec.UnboundedKeepsOldLimits | src/RooMinimizerOpt.cc:619-629 | a floating parameter without bounds never changes its entry's limits |
| SyncSpec.ReconcileStep | src/RooMinimizerOpt.cc:485-653 | one position appends at most one entry, never removes one, and never lowers a flag |
| SyncSpec.ReconcileLoop | src/RooMinimizerOpt.cc:485-653 | the pass never shortens the settings vector and never lowers a flag |
| SyncSpec.ReconcileAligned | src/RooMinimizerOpt.cc:485-653 | with all floating entries real, the pass updates the known positions, appends the missing ones in order, leaves later ones alone, and raises each flag exactly when some position flips its fixed state or moves a fixed value |
| SyncSpec.SettingsTrackParameters | src/RooMinimizerOpt.cc:485-653 | after the pass every floating position's entry holds the parameter's value, and every position the engine knew is fixed exactly when its parameter is constant |
| SyncSpec.Notification | src/RooMinimizerOpt.cc:655-669 | with constant optimization on, a set change sends ConfigChange, a value change alone sends ValueChange, otherwise nothing is sent |
| EvalSpec.CommitAt | src/RooMinimizerOpt.cc:364-371 | a position whose cached value equals the coordinate is untouched; any other has its parameter set through the setter and caches the value read back; parameters off the list are untouched |
| EvalSpec.CommitLoop | src/RooMinimizerOpt.cc:364-371 | the write-back keeps the set of parameter names and the length of the cache |
| EvalSpec.CommitKeepsShape | src/RooMinimizerOpt.cc:364-371 | the write-back changes parameter values only: names, kinds, bounds, errors and constness stay |
| EvalSpec.CommitKeepsCoherent | src/RooMinimizerOpt.cc:364-371 | the write-back keeps the cache equal to the parameters' values |
| EvalSpec.CommitReachesPoint | src/RooMinimizerOpt.cc:364-371 | when the setter accepts every coordinate, the model and the cache end up exactly at the trial point |
| EvalSpec.CommitNoop | src/RooMinimizerOpt.cc:364-371 | a write-back whose coordinates all equal the cache changes nothing |
| EvalSpec.RecommitIsNoop | src/RooMinimizerOpt.cc:364-371 | evaluating an accepted point a second time writes no parameter |
| EvalSpec.AtCache | src/RooMinimizerOpt.cc:364-371 | parameters moved to the cached values from a position on: same names, positions before it and parameters off the list untouched, the others at their cached value |
| EvalSpec.CoherentAtCache | src/RooMinimizerOpt.cc:364-371 | parameters coherent with the cache are already at the cached values |
| EvalSpec.CommitStaysAtCache | src/RooMinimizerOpt.cc:364-371 | an evaluation starting from the cached values of a base state ends at that base's new cached values: nothing but listed values moves |
| EvalSpec.BackPropLoop | src/RooMinimizerOpt.cc:72 | the write-back of an engine result keeps the set of parameter names |
| EvalSpec.Written | src/RooMinimizerOpt.cc:81-84 | writing one result position changes only value and error: the error becomes the result's, and a value equal to the result's stays |
| EvalSpec.BackPropAt | src/RooMinimizerOpt.cc:81-84 | every floating position the result covers is written, every other parameter is untouched |
| EvalSpec.BackPropKeepsShape | src/RooMinimizerOpt.cc:81-84 | the write-back changes only values and errors: names, kinds, bounds and constness stay |
| EvalSpec.BackPropNoop | src/RooMinimizerOpt.cc:81-84 | writing back a result the parameters already carry changes nothing |
| EvalSpec.OperationKeepsShape | src/RooMinimizerOpt.cc:81-84 | a whole engine operation, its evaluations followed by the write-back, changes only values and errors (`ValuesMoved`) |
| MinimizerFcn.FcnOpt.constructor | src/RooMinimizerOpt.cc:342-345 | the adapter starts with the given lists (distinct names over name-keyed parameters), snapshots of their current state, dimension equal to the floating list's length and an empty cache |
| MinimizerFcn.FcnOpt.InitStdVects | src/RooMinimizerOpt.cc:679-691 | succeeds exactly when every floating entry is real; then the cache lists the floating parameters and their current values; otherwise it stops at the first offending entry with the entries before it filled |
| MinimizerFcn.FcnOpt.MigrateConstants | src/RooMinimizerOpt.cc:441-481 | the lists, dimension and flags become those of the migration pass, and the constant snapshots are refreshed |
| MinimizerFcn.FcnOpt.MigrateLists | src/RooMinimizerOpt.cc:442-478 | the migration loop over the lists computes exactly the migration pass |
| MinimizerFcn.FcnOpt.StepAndLimits | src/RooMinimizerOpt.cc:490-543 | step and limits offered to the engine: error estimate or default step and the bounds for a floating parameter, step 0 and the value as both limits for a constant one |
| MinimizerFcn.FcnOpt.NewSetting | src/RooMinimizerOpt.cc:546-565 | builds the appended entry, free, with the parameter's value and its bounded sides |
| MinimizerFcn.FcnOpt.SyncSetting | src/RooMinimizerOpt.cc:568-629 | applies the deltas of UpdateEntry: the entry ends with the parameter's value and fixed exactly when constant; flags as in UpdateEntryAgrees |
| MinimizerFcn.FcnOpt.ReconcileSettings | src/RooMinimizerOpt.cc:485-653 | the settings vector and flags become those of the reconciliation pass |
| MinimizerFcn.FcnOpt.Notify | src/RooMinimizerOpt.cc:655-669 | with constant optimization on, the optimizer receives ConfigChange after a set change, otherwise ValueChange after a value change, otherwise nothing |
| MinimizerFcn.FcnOpt.SyncPasses | src/RooMinimizerOpt.cc:441-669 | lists, dimension, snapshots and settings become those of the migration pass followed by the settings pass, and the optimizer is notified of the combined flags |
| MinimizerFcn.FcnOpt.Synchronize | src/RooMinimizerOpt.cc:429-677 | runs both passes, sends the chosen notification, rebuilds the cache and returns false: lists, snapshots, dimension, settings and notifications are those both passes make of the earlier state (`SyncedFrom`); the parameters and the evaluation counters are unchanged; on success the cache is coherent and the settings hold every floating parameter's value |
| MinimizerFcn.FcnOpt.CommitPoint | src/RooMinimizerOpt.cc:364-371 | the write-back loop computes exactly CommitLoop and keeps a coherent cache coherent |
| MinimizerFcn.FcnOpt.DoEval | src/RooMinimizerOpt.cc:360-427 | writes back as CommitLoop; on an evaluation error returns the running maximum (wall) or the raw value, clears flag and log and counts one bad evaluation; otherwise returns the value and raises the running maximum to it; the maximum never decreases and a coherent cache stays coherent |
| MinimizerFcn.FcnOpt.EvalPoints | src/RooMinimizerOpt.cc:360-427 | the engine's evaluations during one operation: only floating values move and they end at the cached ones (`AtCache`); the cache stays coherent; the running maximum never decreases; the bad-evaluation count grows by at most one per point; an empty error log stays empty; lists and notifications are unchanged |
| MinimizerFcn.Model.SetError | src/RooMinimizerOpt.cc:72 | gives one parameter the error estimate and changes nothing else |
| MinimizerFcn.Model.WriteBack | src/RooMinimizerOpt.cc:72 | writes one result position into its parameter as `Written` does |
| MinimizerFcn.Model.WriteResult | src/RooMinimizerOpt.cc:72 | the loop over the floating list computes exactly `BackPropLoop` |
| MinimizerFcn.FcnOpt.BackProp | src/RooMinimizerOpt.cc:72 | the parameters become `BackPropLoop` of the old ones over the floating list; lists and notifications are unchanged |
| Minimizer.IndexOf | src/RooMinimizerOpt.cc:261-263 | position of the first entry with the requested name, or the length when absent |
| Minimizer.MinosIndices | src/RooMinimizerOpt.cc:257-266 | at most one index per requested name, each a position on the floating list |
| Minimizer.MinosIndicesSound | src/RooMinimizerOpt.cc:257-266 | every selected index is a floating position of a requested non-constant parameter, at most one per name |
| Minimizer.MinosIndicesComplete | src/RooMinimizerOpt.cc:257-266 | every requested name found on the floating list and not constant contributes its position |
| Minimizer.MinosIndicesEmpty | src/RooMinimizerOpt.cc:257-269 | the selection is empty exactly when no requested name resolves |
| Minimizer.AlgorithmAfter | src/RooMinimizerOpt.cc:61 | a missing algorithm keeps the engine's algorithm, a given one replaces it |
| Minimizer.MinimizerOpt.SelectMinosIndices | src/RooMinimizerOpt.cc:256-267 | the loop builds exactly the index selection, in request order |
| Minimizer.MinimizerOpt.Create | src/RooMinimizerOpt.cc:14-42 | limits 500 per floating parameter, tolerance, error level, final print level 0 when silent and 2 otherwise; the parameters are declared to an engine that starts with no settings: lists, snapshots, dimension, the engine's steps, limits and fixed flags, and the notification are what `Synchronize` makes of the earlier state (`SyncedFrom`), and the settings hold the parameters' values; raises when synchronization does |
| Minimizer.MinimizerOpt.Configure | src/RooMinimizerOpt.cc:14-31 | a fresh engine with the minimizer type, limits 500 per floating parameter, tolerance, error level and a silent print level |
| Minimizer.MinimizerOpt.Edm | src/RooMinimizerOpt.cc:44-49 | raises while the shared fitter pointer is unset, otherwise returns the result's distance to minimum |
| Minimizer.MinimizerOpt.Declare | src/RooMinimizerOpt.cc:33-34 | the objective and the engine's settings are in the state `Synchronize` makes of the earlier one (`SyncedFrom`); it succeeds exactly when every floating entry is real, and then the cache is coherent and the settings hold the parameters' values; parameters, engine state and evaluation counters are unchanged |
| Minimizer.MinimizerOpt.SyncEngine | src/RooMinimizerOpt.cc:53-65 | as Declare; on success the evaluation error log is empty before the engine runs; the parameters, status, history, engine state and evaluation counters are unchanged |
| Minimizer.MinimizerOpt.Conclude | src/RooMinimizerOpt.cc:72-74 | the parameters become the write-back of the engine's last result, the whole operation changed only values and errors, and the status is appended to the history under the operation's name |
| Minimizer.MinimizerOpt.FitWith | src/RooMinimizerOpt.cc:51-140 | the body shared by the three fits: synchronizes as Declare; raises exactly when a floating entry is not real, and then status, history, engine state, parameters and evaluation counters are unchanged; otherwise the fit's evaluations and write-back are applied (`RunApplied`), only values and errors changed, the engine's status or -1 is recorded under the operation's name, the engine's result, status and distance to minimum are the run's, and type, algorithm and minimizer existence are as selected and fitted |
| Minimizer.MinimizerOpt.FitOn | src/RooMinimizerOpt.cc:61-74 | selects the type and the algorithm when one is given, evaluates and fits, takes the engine's status or -1, writes the result back (`RunApplied`: only values and errors change), records the status; the engine's result, status and distance to minimum are the run's; lists, notifications and settings stay |
| Minimizer.MinimizerOpt.Minimize | src/RooMinimizerOpt.cc:51-77 | synchronizes as Declare; raises exactly when a floating entry is not real, changing neither status, history, engine state, parameters nor counters; otherwise fits with the given type and the given algorithm or, when none is given, the engine's previous one, writes the result back (`RunApplied`, only values and errors change), and records the engine's status, or -1 on failure, under MINIMIZE; the engine's result, status and distance to minimum are the run's and whether a minimizer exists is the fit's |
| Minimizer.MinimizerOpt.Improve | src/RooMinimizerOpt.cc:79-108 | as Minimize with the driver's type and algorithm migradimproved, recorded under IMPROVE |
| Minimizer.MinimizerOpt.Migrad | src/RooMinimizerOpt.cc:110-140 | as Minimize with the driver's type and algorithm migrad, recorded under MIGRAD |
| Minimizer.MinimizerOpt.Hesse | src/RooMinimizerOpt.cc:145-185 | without a minimizer the status is -1 and nothing else changes (engine, settings, adapter, parameters, history); otherwise as Minimize but with Hesse on the driver's type, recorded under HESSE; the minimizer's existence is unchanged |
| Minimizer.MinimizerOpt.HesseWith | src/RooMinimizerOpt.cc:157-181 | the minimizer-present branch of Hesse with the same guarantees |
| Minimizer.MinimizerOpt.HesseOn | src/RooMinimizerOpt.cc:171-179 | selects the driver's type, evaluates, runs Hesse, takes the engine's status or -1, writes the result back (`RunApplied`), records the status under HESSE; the engine's result, status and distance to minimum are the run's; algorithm, Minos indices, minimizer existence, lists and settings stay |
| Minimizer.MinimizerOpt.Minos | src/RooMinimizerOpt.cc:188-227 | as Hesse with Minos on the engine's current Minos indices, recorded under MINOS |
| Minimizer.MinimizerOpt.MinosWith | src/RooMinimizerOpt.cc:200-223 | the minimizer-present branch of Minos with the same guarantees |
| Minimizer.MinimizerOpt.MinosOn | src/RooMinimizerOpt.cc:269-283 | sets the Minos indices, selects the driver's type, evaluates, runs Minos on those indices, takes the engine's status or -1, writes the result back (`RunApplied`), records the status under MINOS; the engine's result, status and distance to minimum are the run's; algorithm, minimizer existence, lists and settings stay |
| Minimizer.MinimizerOpt.MinosSubset | src/RooMinimizerOpt.cc:231-288 | without a minimizer the status is -1 and nothing else changes; with an empty request nothing changes at all; otherwise synchronizes as Declare, raising as Minimize does; when some name resolves the engine runs Minos on exactly the selected indices and the result is applied as in MinosOn; when none resolves the engine is not called, status and engine state stay, and the engine's previous result is written back; the status is recorded under MINOS; only values and errors ever change |
| Minimizer.MinimizerOpt.MinosNamed | src/RooMinimizerOpt.cc:243-284 | the non-empty-request branch of MinosSubset, with the same guarantees |
| Minimizer.MinimizerOpt.SetStrategy | src/RooMinimizerOpt.cc:292-301 | the engine's strategy becomes the given one |
| Minimizer.MinimizerOpt.SetErrorLevel | src/RooMinimizerOpt.cc:306-315 | the engine's error definition becomes the given level |
| Minimizer.MinimizerOpt.SetEps | src/RooMinimizerOpt.cc:320-326 | the engine's tolerance becomes the given one |
| Minimizer.MinimizerOpt.SetPrintLevel | src/RooMinimizerOpt.cc:329-337 | returns the previous level and sets driver and engine level to one above the request |

## Left out

- The numerical engine: how it picks its trial points, and its fitting, Hesse and Minos arithmetic. Each operation's outcome is an `EngineRun` input: the trial points it evaluates in order, success, status, distance to minimum, the result it writes back, and whether a minimizer exists afterwards. A trial point whose length is not the dimension is skipped, not evaluated.
- `updateFloatVec` and the construction of the lists by the base class `RooMinimizerFcn`, which is not part of this model: the lists are constructor arguments. The base class's `BackProp` is modelled from the promise at src/RooMinimizerOpt.cc:81-84: position by position over the floating list it asks the parameter to take the result's value through the setter and gives it the result's error. Asymmetric Minos errors, which the base class may also store, are not modelled. `saveStatus` is modelled as an append to `history`. The base class's initial status and print level start at 0.
- `RooRealVar::setVal` is the model's `setRule`, an input function: the clamp itself is not in this file. `getVal`, the error flag and the error count come from the `objective` input function. `constOptimizeTestStatistic` is recorded as a notification.
- `ParameterSettings` is a plain record: a limit setter sets the named side(s) and, for a one-sided setter, drops the other side. Any normalisation the engine's own setters apply is not part of this model. `SetMinimizer` with a null algorithm leaves the algorithm unchanged (`AlgorithmAfter`); the minimizer type is never null here.
- The assignment `*_initConstParamList = *_constParamList` copies values by name. It is modelled as a fresh snapshot of the constant list, which is the same thing when both lists hold the same names. `remove(*par)` is modelled as removal at the current index; that is the same when list entries are distinct.
- Messages, `cout` progress output, the evaluation log file, the printed error diagnostics (`_printEvalErrors`, `printEvalErrors`), the `verbose` flag's output, profiling and the switching of the eval-error logging mode: these are output or global side channels with no effect on the modelled state.
- `Clone`, the copy constructor, the `typeid` dispatch before each `Synchronize` call, and collection iterators and ownership.
- MinimizerFcn.FcnOpt.EvalPoints: assumes the engine evaluates this adapter itself. The copy constructor (src/RooMinimizerOpt.cc:347-349) copies only the cache, so a clone keeps its own running maximum and bad-evaluation count. Which object the engine evaluates is decided outside this file, so the model does not capture evaluations made on a clone.
- Floating point: values are exact reals, and `!=` is exact inequality.
- MinimizerFcn.FcnOpt.Synchronize: when the cache rebuild raises, the partly rebuilt cache is stated by `InitStdVects`, not restated here.
