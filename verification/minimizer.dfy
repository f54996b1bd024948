/**
 * The fit driver: each operation re-synchronizes the adapter with the
 * engine, launches one engine operation and records the status it ends
 * with (the engine's status on success, -1 on failure). Hesse and Minos
 * need a minimizer from an earlier fit and report -1 without one.
 */
module Minimizer {
  import opened Params
  import opened SyncSpec
  import opened Engine
  import opened EvalSpec
  import opened MinimizerFcn

  /** Outcome of a call that may raise: its value, or the exception. */
  datatype Call<T> = Returns(value: T) | Throws(reason: string)

  datatype Option<T> = None | Some(value: T)

  /** The engine's algorithm after `SetMinimizer(type, alg)`: a null
      algorithm keeps the one configured before. */
  function AlgorithmAfter(alg: Option<string>, before: string): (a: string)
    ensures alg.None? ==> a == before
    ensures alg.Some? ==> a == alg.value
  {
    if alg.Some? then alg.value else before
  }

  const NotRealVar := "Float param not a RooRealVar"
  const NoFitYet := "Must have done a fit before calling edm()"

  /** Position of the first entry named `n` in `s`, or |s| when absent. */
  function IndexOf(s: seq<string>, n: string): (k: nat)
    ensures k <= |s|
    ensures k < |s| ==> s[k] == n
    ensures forall j :: 0 <= j < k ==> s[j] != n
  {
    if s == [] then 0
    else if s[0] == n then 0
    else 1 + IndexOf(s[1..], n)
  }

  /** Name `n` is on the floating list `f` and that parameter is not
      constant. */
  predicate Resolves(f: seq<string>, ps: map<string, Param>, n: string)
    requires AllIn(f, ps)
  {
    IndexOf(f, n) < |f| && !ps[f[IndexOf(f, n)]].isConst
  }

  /** Floating-list positions of the requested names that resolve, in the
      order the names are requested. */
  function MinosIndices(f: seq<string>, ps: map<string, Param>, names: seq<string>): (r: seq<nat>)
    requires AllIn(f, ps)
    ensures |r| <= |names|
    ensures forall i :: 0 <= i < |r| ==> r[i] < |f|
  {
    if names == [] then []
    else
      var rest := MinosIndices(f, ps, names[..|names| - 1]);
      var n := names[|names| - 1];
      if Resolves(f, ps, n) then rest + [IndexOf(f, n)] else rest
  }

  /** Every selected index is a floating-list position of a requested,
      non-constant parameter, and there is at most one per name. */
  lemma {:induction false} MinosIndicesSound(f: seq<string>, ps: map<string, Param>, names: seq<string>)
    requires AllIn(f, ps)
    ensures var r := MinosIndices(f, ps, names);
      && |r| <= |names|
      && forall i :: 0 <= i < |r| ==> r[i] < |f| && f[r[i]] in names && !ps[f[r[i]]].isConst
  {
    if names != [] {
      var init := names[..|names| - 1];
      MinosIndicesSound(f, ps, init);
      var r := MinosIndices(f, ps, names);
      forall i | 0 <= i < |r|
        ensures r[i] < |f| && f[r[i]] in names && !ps[f[r[i]]].isConst
      {
        if i < |MinosIndices(f, ps, init)| {
          assert f[r[i]] in init;
        }
      }
    }
  }

  /** Every requested name that resolves contributes its position. */
  lemma {:induction false} MinosIndicesComplete(f: seq<string>, ps: map<string, Param>, names: seq<string>)
    requires AllIn(f, ps)
    ensures forall n :: n in names && Resolves(f, ps, n) ==> IndexOf(f, n) in MinosIndices(f, ps, names)
  {
    if names != [] {
      var init := names[..|names| - 1];
      MinosIndicesComplete(f, ps, init);
      assert names == init + [names[|names| - 1]];
    }
  }

  /** The selection is empty exactly when no requested name resolves. */
  lemma MinosIndicesEmpty(f: seq<string>, ps: map<string, Param>, names: seq<string>)
    requires AllIn(f, ps)
    ensures MinosIndices(f, ps, names) == [] <==> forall n :: n in names ==> !Resolves(f, ps, n)
  {
    MinosIndicesSound(f, ps, names);
    MinosIndicesComplete(f, ps, names);
    var r := MinosIndices(f, ps, names);
    if r != [] {
      var n := f[r[0]];
      assert IndexOf(f, n) <= r[0];
      assert n in names && Resolves(f, ps, n);
    }
  }

  class MinimizerOpt {
    const fcn: FcnOpt
    const fitter: Fitter
    var minimizerType: string
    var optConst: bool
    var verbose: bool
    var status: int
    var printLevel: int
    var history: seq<(string, int)>
    /** Whether the base class's shared fitter pointer is set; the
        constructor clears it and nothing here sets it again. */
    var sharedFitterPresent: bool

    ghost predicate Valid()
      reads fcn, fcn.model`params
    {
      fcn.Valid()
    }

    /** Field set-up of a new driver over `fcn` with a fresh engine. */
    constructor Init(fcn: FcnOpt, minimizerType: string, optConst: bool, verbose: bool)
      ensures this.fcn == fcn && fresh(fitter)
      ensures this.minimizerType == minimizerType && this.optConst == optConst && this.verbose == verbose
      ensures status == 0 && printLevel == 0 && history == [] && !sharedFitterPresent
      ensures fitter.settings == [] && !fitter.hasMinimizer && fitter.calls == []
    {
      this.fcn := fcn;
      fitter := new Fitter();
      this.minimizerType := minimizerType;
      this.optConst := optConst;
      this.verbose := verbose;
      status := 0;
      printLevel := 0;
      history := [];
      sharedFitterPresent := false;
    }

    /** Construction: choose the minimizer, set the iteration and call
        limits to 500 per floating parameter, the tolerance, a silent print
        level and the error level, declare the parameters to the engine by
        synchronizing, then set the print level for the message mode. Fails
        when the synchronization's cache rebuild raises. */
    static method Create(fcn: FcnOpt, minimizerType: string, optConst: bool, verbose: bool,
                         defaultTolerance: real, errorLevel: real, silent: bool)
      returns (r: Call<MinimizerOpt>)
      requires fcn.Valid()
      modifies fcn`constList, fcn`floatList, fcn`initConstList, fcn`initFloatList, fcn`nDim, fcn`vars, fcn`vals
      modifies fcn.model`optimizations
      ensures fcn.Valid()
      ensures r.Returns? <==> AllRealVar(fcn.floatList, fcn.model.params)
      ensures r.Returns? ==>
        var m := r.value;
        && fresh(m) && fresh(m.fitter) && m.fcn == fcn && m.Valid() && fcn.Ready()
        && fcn.InSync(m.fitter.settings)
        && m.fitter.minimizerType == minimizerType
        && m.fitter.maxIterations == 500 * old(fcn.nDim)
        && m.fitter.maxFunctionCalls == 500 * old(fcn.nDim)
        && m.fitter.tolerance == defaultTolerance && m.fitter.errorDef == errorLevel
        && m.printLevel == (if silent then 0 else 2) && m.fitter.printLevel == m.printLevel
        && m.status == 0 && m.history == [] && !m.sharedFitterPresent
        && !m.fitter.hasMinimizer && m.fitter.calls == []
      ensures r.Returns? ==>
        fcn.SyncedFrom(old(fcn.model.params), old(fcn.Lists()), [], old(fcn.model.optimizations), optConst, r.value.fitter.settings)
      ensures r.Throws? ==> r.reason == NotRealVar
    {
      var m := Configure(fcn, minimizerType, optConst, verbose, defaultTolerance, errorLevel);
      var ok := m.Declare();
      if !ok {
        return Throws(NotRealVar);
      }
      if silent {
        var _ := m.SetPrintLevel(-1);
      } else {
        var _ := m.SetPrintLevel(1);
      }
      r := Returns(m);
    }

    /** The engine set-up of construction, before the parameters are
        declared. */
    static method Configure(fcn: FcnOpt, minimizerType: string, optConst: bool, verbose: bool,
                            defaultTolerance: real, errorLevel: real)
      returns (m: MinimizerOpt)
      ensures fresh(m) && fresh(m.fitter) && m.fcn == fcn
      ensures m.optConst == optConst && m.verbose == verbose
      ensures m.fitter.minimizerType == minimizerType
      ensures m.fitter.maxIterations == 500 * fcn.nDim && m.fitter.maxFunctionCalls == 500 * fcn.nDim
      ensures m.fitter.tolerance == defaultTolerance && m.fitter.errorDef == errorLevel
      ensures m.printLevel == 0 && m.fitter.printLevel == 0
      ensures m.status == 0 && m.history == [] && !m.sharedFitterPresent
      ensures m.fitter.settings == [] && !m.fitter.hasMinimizer && m.fitter.calls == []
    {
      m := new MinimizerOpt.Init(fcn, minimizerType, optConst, verbose);
      m.fitter.minimizerType := minimizerType;
      m.fitter.maxIterations := 500 * fcn.nDim;
      m.fitter.maxFunctionCalls := 500 * fcn.nDim;
      m.SetEps(defaultTolerance);
      var _ := m.SetPrintLevel(-1);
      m.SetErrorLevel(errorLevel);
    }

    /** Estimated distance to minimum of the last result; raises while the
        shared fitter pointer is unset. */
    method Edm() returns (r: Call<real>)
      ensures r == if sharedFitterPresent then Returns(fitter.resultEdm) else Throws(NoFitYet)
    {
      if !sharedFitterPresent {
        return Throws(NoFitYet);
      }
      r := Returns(fitter.resultEdm);
    }

    /** Declare the parameters to the engine: synchronize its settings with
        the parameters; false when a floating entry is not of the concrete
        real kind (where `initStdVects` throws). */
    method Declare() returns (ok: bool)
      requires Valid()
      modifies fcn`constList, fcn`floatList, fcn`initConstList, fcn`initFloatList, fcn`nDim, fcn`vars, fcn`vals
      modifies fcn.model`optimizations, fitter`settings
      ensures Valid()
      ensures fcn.SyncedFrom(old(fcn.model.params), old(fcn.Lists()), old(fitter.settings), old(fcn.model.optimizations), optConst, fitter.settings)
      ensures ok <==> AllRealVar(fcn.floatList, fcn.model.params)
      ensures ok ==> fcn.Ready() && Coherent(fcn.model.params, fcn.vars, fcn.vals) && fcn.InSync(fitter.settings)
      ensures fitter.State() == old(fitter.State())
      ensures fcn.model.params == old(fcn.model.params) && fcn.model.evalError == old(fcn.model.evalError)
      ensures fcn.model.numEvalErrors == old(fcn.model.numEvalErrors)
      ensures fcn.maxFCN == old(fcn.maxFCN) && fcn.numBadNLL == old(fcn.numBadNLL)
    {
      var _, synced := fcn.Synchronize(fitter, optConst, verbose);
      ok := synced;
    }

    /** The preamble of every engine operation: declare the parameters, then
        clear the evaluation error log. */
    method SyncEngine() returns (ok: bool)
      requires Valid()
      modifies fcn`constList, fcn`floatList, fcn`initConstList, fcn`initFloatList, fcn`nDim, fcn`vars, fcn`vals
      modifies fcn.model`optimizations, fcn.model`numEvalErrors, fitter`settings
      ensures Valid()
      ensures fcn.SyncedFrom(old(fcn.model.params), old(fcn.Lists()), old(fitter.settings), old(fcn.model.optimizations), optConst, fitter.settings)
      ensures ok <==> AllRealVar(fcn.floatList, fcn.model.params)
      ensures ok ==> fcn.Ready() && Coherent(fcn.model.params, fcn.vars, fcn.vals) && fcn.InSync(fitter.settings) && fcn.model.numEvalErrors == 0
      ensures !ok ==> fcn.model.numEvalErrors == old(fcn.model.numEvalErrors)
      ensures status == old(status) && history == old(history) && fitter.State() == old(fitter.State())
      ensures fcn.model.params == old(fcn.model.params) && fcn.model.evalError == old(fcn.model.evalError)
      ensures fcn.maxFCN == old(fcn.maxFCN) && fcn.numBadNLL == old(fcn.numBadNLL)
    {
      ok := Declare();
      if ok {
        fcn.model.ClearEvalErrorLog();
      }
    }

    /** The parameters after an engine operation that started from `ps0`:
        the evaluations leave the floating parameters at the cache's
        values, then the result `res` is written back over the floating
        list. */
    ghost predicate RunApplied(ps0: map<string, Param>, res: seq<ParamResult>)
      reads fcn, fcn.model`params
    {
      && fcn.Ready() && AllIn(fcn.vars, ps0)
      && fcn.model.params == BackPropLoop(AtCache(ps0, fcn.vars, fcn.vals, 0), fcn.model.setRule, fcn.floatList, res, 0)
    }

    /** Write the engine's last result back into the floating parameters
        and record the status under `opName`, after an operation whose
        evaluations started from the parameters `ps0`. */
    method Conclude(ghost ps0: map<string, Param>, opName: string)
      requires fcn.Ready() && AllIn(fcn.vars, ps0)
      requires fcn.model.params == AtCache(ps0, fcn.vars, fcn.vals, 0)
      modifies this`history, fcn.model`params
      ensures fcn.model.params == BackPropLoop(old(fcn.model.params), fcn.model.setRule, fcn.floatList, fitter.result, 0)
      ensures RunApplied(ps0, fitter.result) && ValuesMoved(ps0, fcn.model.params)
      ensures history == old(history) + [(opName, status)]
      ensures fcn.Lists() == old(fcn.Lists()) && fcn.vals == old(fcn.vals) && fcn.model.optimizations == old(fcn.model.optimizations)
    {
      DistinctParts(fcn.constList, fcn.floatList);
      OperationKeepsShape(ps0, fcn.model.setRule, fcn.floatList, fcn.vals, fitter.result);
      fcn.BackProp(fitter.result);
      history := history + [(opName, status)];
    }

    /** Synchronize, select `typ`/`alg`, fit, write the result back and
        record the status under `opName`. */
    method FitWith(typ: string, alg: Option<string>, opName: string, run: EngineRun) returns (r: Call<int>)
      requires Valid()
      modifies this`status, this`history, fitter`settings, fitter`minimizerType, fitter`algorithm
      modifies fitter`hasMinimizer, fitter`resultStatus, fitter`resultEdm, fitter`result, fitter`calls
      modifies fcn`constList, fcn`floatList, fcn`initConstList, fcn`initFloatList, fcn`nDim, fcn`vars, fcn`vals
      modifies fcn`maxFCN, fcn`numBadNLL
      modifies fcn.model`params, fcn.model`optimizations, fcn.model`evalError, fcn.model`numEvalErrors
      ensures Valid()
      ensures fcn.SyncedFrom(old(fcn.model.params), old(fcn.Lists()), old(fitter.settings), old(fcn.model.optimizations), optConst, fitter.settings)
      ensures ValuesMoved(old(fcn.model.params), fcn.model.params)
      ensures r.Throws? <==> !AllRealVar(fcn.floatList, old(fcn.model.params))
      ensures r.Throws? ==>
        && r.reason == NotRealVar && status == old(status) && history == old(history)
        && fitter.State() == old(fitter.State())
        && fcn.model.params == old(fcn.model.params) && fcn.model.evalError == old(fcn.model.evalError)
        && fcn.model.numEvalErrors == old(fcn.model.numEvalErrors)
        && fcn.maxFCN == old(fcn.maxFCN) && fcn.numBadNLL == old(fcn.numBadNLL)
      ensures r.Returns? ==>
        && RunApplied(old(fcn.model.params), run.result) && fcn.model.numEvalErrors == 0
        && fcn.maxFCN >= old(fcn.maxFCN)
        && old(fcn.numBadNLL) <= fcn.numBadNLL <= old(fcn.numBadNLL) + |run.points|
        && fitter.result == run.result && fitter.resultStatus == run.status && fitter.resultEdm == run.edm
        && status == (if run.ok then run.status else -1) && r.value == status
        && history == old(history) + [(opName, status)]
        && fitter.minimizerType == typ && fitter.algorithm == AlgorithmAfter(alg, old(fitter.algorithm))
        && fitter.calls == old(fitter.calls) + [Fit(typ, AlgorithmAfter(alg, old(fitter.algorithm)))]
        && fitter.hasMinimizer == run.minimizerExists

    {
      var ok := SyncEngine();
      if !ok {
        return Throws(NotRealVar);
      }
      FitOn(typ, alg, opName, run);
      r := Returns(status);
    }

    /** The fit after a successful synchronization: select `typ`, and
        `alg` when one is given, run the fit, with the engine's evaluations
        of the objective at its trial points, take the engine's status, or
        -1 when it fails, write the result back and record the status under
        `opName`. */
    method FitOn(typ: string, alg: Option<string>, opName: string, run: EngineRun)
      requires fcn.Ready() && Coherent(fcn.model.params, fcn.vars, fcn.vals)
      modifies this`status, this`history, fitter`minimizerType, fitter`algorithm
      modifies fitter`hasMinimizer, fitter`resultStatus, fitter`resultEdm, fitter`result, fitter`calls
      modifies fcn`vals, fcn`maxFCN, fcn`numBadNLL, fcn.model`params, fcn.model`evalError, fcn.model`numEvalErrors
      ensures RunApplied(old(fcn.model.params), run.result) && ValuesMoved(old(fcn.model.params), fcn.model.params)
      ensures fcn.maxFCN >= old(fcn.maxFCN) && old(fcn.numBadNLL) <= fcn.numBadNLL <= old(fcn.numBadNLL) + |run.points|
      ensures old(fcn.model.numEvalErrors) == 0 ==> fcn.model.numEvalErrors == 0
      ensures fitter.minimizerType == typ && fitter.algorithm == AlgorithmAfter(alg, old(fitter.algorithm))
      ensures fitter.hasMinimizer == run.minimizerExists
      ensures fitter.resultStatus == run.status && fitter.resultEdm == run.edm && fitter.result == run.result
      ensures status == (if run.ok then run.status else -1)
      ensures history == old(history) + [(opName, status)]
      ensures fitter.calls == old(fitter.calls) + [Fit(typ, AlgorithmAfter(alg, old(fitter.algorithm)))]
      ensures fcn.Lists() == old(fcn.Lists()) && fcn.model.optimizations == old(fcn.model.optimizations) && fitter.settings == old(fitter.settings)
    {
      ghost var ps0 := fcn.model.params;
      fitter.minimizerType := typ;
      if alg.Some? {
        fitter.algorithm := alg.value;
      }
      fcn.EvalPoints(run.points);
      var ret := fitter.FitFCN(run);
      status := if ret then fitter.resultStatus else -1;
      Conclude(ps0, opName);
    }

    /** Minimize with the given minimizer type and algorithm. */
    method Minimize(typ: string, alg: Option<string>, run: EngineRun) returns (r: Call<int>)
      requires Valid()
      modifies this`status, this`history, fitter`settings, fitter`minimizerType, fitter`algorithm
      modifies fitter`hasMinimizer, fitter`resultStatus, fitter`resultEdm, fitter`result, fitter`calls
      modifies fcn`constList, fcn`floatList, fcn`initConstList, fcn`initFloatList, fcn`nDim, fcn`vars, fcn`vals
      modifies fcn`maxFCN, fcn`numBadNLL
      modifies fcn.model`params, fcn.model`optimizations, fcn.model`evalError, fcn.model`numEvalErrors
      ensures Valid()
      ensures fcn.SyncedFrom(old(fcn.model.params), old(fcn.Lists()), old(fitter.settings), old(fcn.model.optimizations), optConst, fitter.settings)
      ensures ValuesMoved(old(fcn.model.params), fcn.model.params)
      ensures r.Throws? <==> !AllRealVar(fcn.floatList, old(fcn.model.params))
      ensures r.Throws? ==>
        && r.reason == NotRealVar && status == old(status) && history == old(history)
        && fitter.State() == old(fitter.State())
        && fcn.model.params == old(fcn.model.params) && fcn.model.evalError == old(fcn.model.evalError)
        && fcn.model.numEvalErrors == old(fcn.model.numEvalErrors)
        && fcn.maxFCN == old(fcn.maxFCN) && fcn.numBadNLL == old(fcn.numBadNLL)
      ensures r.Returns? ==>
        && RunApplied(old(fcn.model.params), run.result) && fcn.model.numEvalErrors == 0
        && fcn.maxFCN >= old(fcn.maxFCN)
        && old(fcn.numBadNLL) <= fcn.numBadNLL <= old(fcn.numBadNLL) + |run.points|
        && fitter.result == run.result && fitter.resultStatus == run.status && fitter.resultEdm == run.edm
        && status == (if run.ok then run.status else -1) && r.value == status
        && history == old(history) + [("MINIMIZE", status)]
        && fitter.minimizerType == typ && fitter.algorithm == AlgorithmAfter(alg, old(fitter.algorithm))
        && fitter.calls == old(fitter.calls) + [Fit(typ, AlgorithmAfter(alg, old(fitter.algorithm)))]
        && fitter.hasMinimizer == run.minimizerExists
    {
      r := FitWith(typ, alg, "MINIMIZE", run);
    }

    /** Migrad with the improve step. */
    method Improve(run: EngineRun) returns (r: Call<int>)
      requires Valid()
      modifies this`status, this`history, fitter`settings, fitter`minimizerType, fitter`algorithm
      modifies fitter`hasMinimizer, fitter`resultStatus, fitter`resultEdm, fitter`result, fitter`calls
      modifies fcn`constList, fcn`floatList, fcn`initConstList, fcn`initFloatList, fcn`nDim, fcn`vars, fcn`vals
      modifies fcn`maxFCN, fcn`numBadNLL
      modifies fcn.model`params, fcn.model`optimizations, fcn.model`evalError, fcn.model`numEvalErrors
      ensures Valid()
      ensures fcn.SyncedFrom(old(fcn.model.params), old(fcn.Lists()), old(fitter.settings), old(fcn.model.optimizations), optConst, fitter.settings)
      ensures ValuesMoved(old(fcn.model.params), fcn.model.params)
      ensures r.Throws? <==> !AllRealVar(fcn.floatList, old(fcn.model.params))
      ensures r.Throws? ==>
        && r.reason == NotRealVar && status == old(status) && history == old(history)
        && fitter.State() == old(fitter.State())
        && fcn.model.params == old(fcn.model.params) && fcn.model.evalError == old(fcn.model.evalError)
        && fcn.model.numEvalErrors == old(fcn.model.numEvalErrors)
        && fcn.maxFCN == old(fcn.maxFCN) && fcn.numBadNLL == old(fcn.numBadNLL)
      ensures r.Returns? ==>
        && RunApplied(old(fcn.model.params), run.result) && fcn.model.numEvalErrors == 0
        && fcn.maxFCN >= old(fcn.maxFCN)
        && old(fcn.numBadNLL) <= fcn.numBadNLL <= old(fcn.numBadNLL) + |run.points|
        && fitter.result == run.result && fitter.resultStatus == run.status && fitter.resultEdm == run.edm
        && status == (if run.ok then run.status else -1) && r.value == status
        && history == old(history) + [("IMPROVE", status)]
        && fitter.minimizerType == minimizerType && fitter.algorithm == "migradimproved"
        && fitter.calls == old(fitter.calls) + [Fit(minimizerType, "migradimproved")]
        && fitter.hasMinimizer == run.minimizerExists
    {
      r := FitWith(minimizerType, Some("migradimproved"), "IMPROVE", run);
    }

    /** Migrad. */
    method Migrad(run: EngineRun) returns (r: Call<int>)
      requires Valid()
      modifies this`status, this`history, fitter`settings, fitter`minimizerType, fitter`algorithm
      modifies fitter`hasMinimizer, fitter`resultStatus, fitter`resultEdm, fitter`result, fitter`calls
      modifies fcn`constList, fcn`floatList, fcn`initConstList, fcn`initFloatList, fcn`nDim, fcn`vars, fcn`vals
      modifies fcn`maxFCN, fcn`numBadNLL
      modifies fcn.model`params, fcn.model`optimizations, fcn.model`evalError, fcn.model`numEvalErrors
      ensures Valid()
      ensures fcn.SyncedFrom(old(fcn.model.params), old(fcn.Lists()), old(fitter.settings), old(fcn.model.optimizations), optConst, fitter.settings)
      ensures ValuesMoved(old(fcn.model.params), fcn.model.params)
      ensures r.Throws? <==> !AllRealVar(fcn.floatList, old(fcn.model.params))
      ensures r.Throws? ==>
        && r.reason == NotRealVar && status == old(status) && history == old(history)
        && fitter.State() == old(fitter.State())
        && fcn.model.params == old(fcn.model.params) && fcn.model.evalError == old(fcn.model.evalError)
        && fcn.model.numEvalErrors == old(fcn.model.numEvalErrors)
        && fcn.maxFCN == old(fcn.maxFCN) && fcn.numBadNLL == old(fcn.numBadNLL)
      ensures r.Returns? ==>
        && RunApplied(old(fcn.model.params), run.result) && fcn.model.numEvalErrors == 0
        && fcn.maxFCN >= old(fcn.maxFCN)
        && old(fcn.numBadNLL) <= fcn.numBadNLL <= old(fcn.numBadNLL) + |run.points|
        && fitter.result == run.result && fitter.resultStatus == run.status && fitter.resultEdm == run.edm
        && status == (if run.ok then run.status else -1) && r.value == status
        && history == old(history) + [("MIGRAD", status)]
        && fitter.minimizerType == minimizerType && fitter.algorithm == "migrad"
        && fitter.calls == old(fitter.calls) + [Fit(minimizerType, "migrad")]
        && fitter.hasMinimizer == run.minimizerExists
    {
      r := FitWith(minimizerType, Some("migrad"), "MIGRAD", run);
    }

    /** Hesse errors; -1 without a minimizer from an earlier fit. */
    method Hesse(run: EngineRun) returns (r: Call<int>)
      requires Valid()
      modifies this`status, this`history, fitter`settings, fitter`minimizerType
      modifies fitter`resultStatus, fitter`resultEdm, fitter`result, fitter`calls
      modifies fcn`constList, fcn`floatList, fcn`initConstList, fcn`initFloatList, fcn`nDim, fcn`vars, fcn`vals
      modifies fcn`maxFCN, fcn`numBadNLL
      modifies fcn.model`params, fcn.model`optimizations, fcn.model`evalError, fcn.model`numEvalErrors
      ensures Valid()
      ensures fitter.hasMinimizer == old(fitter.hasMinimizer)
      ensures ValuesMoved(old(fcn.model.params), fcn.model.params)
      ensures !old(fitter.hasMinimizer) ==>
        && r == Returns(-1) && status == -1 && history == old(history)
        && fitter.State() == old(fitter.State()) && fitter.settings == old(fitter.settings)
        && fcn.State() == old(fcn.State())
      ensures old(fitter.hasMinimizer) ==> (r.Throws? <==> !AllRealVar(fcn.floatList, old(fcn.model.params)))
      ensures old(fitter.hasMinimizer) ==> fcn.SyncedFrom(old(fcn.model.params), old(fcn.Lists()), old(fitter.settings), old(fcn.model.optimizations), optConst, fitter.settings)
      ensures old(fitter.hasMinimizer) && r.Throws? ==>
        && r.reason == NotRealVar && status == old(status) && history == old(history)
        && fitter.State() == old(fitter.State())
        && fcn.model.params == old(fcn.model.params) && fcn.model.evalError == old(fcn.model.evalError)
        && fcn.model.numEvalErrors == old(fcn.model.numEvalErrors)
        && fcn.maxFCN == old(fcn.maxFCN) && fcn.numBadNLL == old(fcn.numBadNLL)
      ensures old(fitter.hasMinimizer) && r.Returns? ==>
        && RunApplied(old(fcn.model.params), run.result) && fcn.model.numEvalErrors == 0
        && fcn.maxFCN >= old(fcn.maxFCN)
        && old(fcn.numBadNLL) <= fcn.numBadNLL <= old(fcn.numBadNLL) + |run.points|
        && fitter.result == run.result && fitter.resultStatus == run.status && fitter.resultEdm == run.edm
        && status == (if run.ok then run.status else -1) && r.value == status
        && history == old(history) + [("HESSE", status)]
        && fitter.minimizerType == minimizerType
        && fitter.calls == old(fitter.calls) + [EngineCall.Hesse(minimizerType)]
    {
      if !fitter.hasMinimizer {
        status := -1;
        return Returns(status);
      }
      r := HesseWith(run);
    }

    /** The body of `Hesse` with a minimizer present: synchronize, then run
        Hesse. */
    method HesseWith(run: EngineRun) returns (r: Call<int>)
      requires Valid()
      modifies this`status, this`history, fitter`settings, fitter`minimizerType
      modifies fitter`resultStatus, fitter`resultEdm, fitter`result, fitter`calls
      modifies fcn`constList, fcn`floatList, fcn`initConstList, fcn`initFloatList, fcn`nDim, fcn`vars, fcn`vals
      modifies fcn`maxFCN, fcn`numBadNLL
      modifies fcn.model`params, fcn.model`optimizations, fcn.model`evalError, fcn.model`numEvalErrors
      ensures Valid()
      ensures ValuesMoved(old(fcn.model.params), fcn.model.params)
      ensures r.Throws? <==> !AllRealVar(fcn.floatList, old(fcn.model.params))
      ensures fcn.SyncedFrom(old(fcn.model.params), old(fcn.Lists()), old(fitter.settings), old(fcn.model.optimizations), optConst, fitter.settings)
      ensures r.Throws? ==>
        && r.reason == NotRealVar && status == old(status) && history == old(history)
        && fitter.State() == old(fitter.State())
        && fcn.model.params == old(fcn.model.params) && fcn.model.evalError == old(fcn.model.evalError)
        && fcn.model.numEvalErrors == old(fcn.model.numEvalErrors)
        && fcn.maxFCN == old(fcn.maxFCN) && fcn.numBadNLL == old(fcn.numBadNLL)
      ensures r.Returns? ==>
        && RunApplied(old(fcn.model.params), run.result) && fcn.model.numEvalErrors == 0
        && fcn.maxFCN >= old(fcn.maxFCN)
        && old(fcn.numBadNLL) <= fcn.numBadNLL <= old(fcn.numBadNLL) + |run.points|
        && fitter.result == run.result && fitter.resultStatus == run.status && fitter.resultEdm == run.edm
        && status == (if run.ok then run.status else -1) && r.value == status
        && history == old(history) + [("HESSE", status)]
        && fitter.minimizerType == minimizerType
        && fitter.calls == old(fitter.calls) + [EngineCall.Hesse(minimizerType)]
    {
      var ok := SyncEngine();
      if !ok {
        return Throws(NotRealVar);
      }
      HesseOn(run);
      r := Returns(status);
    }

    /** Hesse after a successful synchronization: run it with the driver's
        minimizer type, with the engine's evaluations of the objective at
        its trial points, take the engine's status, or -1 when it fails,
        write the result back and record the status. */
    method HesseOn(run: EngineRun)
      requires fcn.Ready() && Coherent(fcn.model.params, fcn.vars, fcn.vals)
      modifies this`status, this`history, fitter`minimizerType, fitter`resultStatus, fitter`resultEdm, fitter`result, fitter`calls
      modifies fcn`vals, fcn`maxFCN, fcn`numBadNLL, fcn.model`params, fcn.model`evalError, fcn.model`numEvalErrors
      ensures RunApplied(old(fcn.model.params), run.result) && ValuesMoved(old(fcn.model.params), fcn.model.params)
      ensures fcn.maxFCN >= old(fcn.maxFCN) && old(fcn.numBadNLL) <= fcn.numBadNLL <= old(fcn.numBadNLL) + |run.points|
      ensures old(fcn.model.numEvalErrors) == 0 ==> fcn.model.numEvalErrors == 0
      ensures fitter.minimizerType == minimizerType
      ensures fitter.resultStatus == run.status && fitter.resultEdm == run.edm && fitter.result == run.result
      ensures status == (if run.ok then run.status else -1)
      ensures history == old(history) + [("HESSE", status)]
      ensures fitter.calls == old(fitter.calls) + [EngineCall.Hesse(minimizerType)]
      ensures fcn.Lists() == old(fcn.Lists()) && fcn.model.optimizations == old(fcn.model.optimizations) && fitter.settings == old(fitter.settings)
      ensures fitter.algorithm == old(fitter.algorithm) && fitter.hasMinimizer == old(fitter.hasMinimizer) && fitter.minosIndices == old(fitter.minosIndices)
    {
      ghost var ps0 := fcn.model.params;
      fitter.minimizerType := minimizerType;
      fcn.EvalPoints(run.points);
      var ret := fitter.CalculateHessErrors(run);
      status := if ret then fitter.resultStatus else -1;
      Conclude(ps0, "HESSE");
    }

    /** Minos errors for all parameters; -1 without a minimizer from an
        earlier fit. */
    method Minos(run: EngineRun) returns (r: Call<int>)
      requires Valid()
      modifies this`status, this`history, fitter`settings, fitter`minimizerType, fitter`minosIndices
      modifies fitter`resultStatus, fitter`resultEdm, fitter`result, fitter`calls
      modifies fcn`constList, fcn`floatList, fcn`initConstList, fcn`initFloatList, fcn`nDim, fcn`vars, fcn`vals
      modifies fcn`maxFCN, fcn`numBadNLL
      modifies fcn.model`params, fcn.model`optimizations, fcn.model`evalError, fcn.model`numEvalErrors
      ensures Valid()
      ensures fitter.hasMinimizer == old(fitter.hasMinimizer)
      ensures ValuesMoved(old(fcn.model.params), fcn.model.params)
      ensures !old(fitter.hasMinimizer) ==>
        && r == Returns(-1) && status == -1 && history == old(history)
        && fitter.State() == old(fitter.State()) && fitter.settings == old(fitter.settings)
        && fcn.State() == old(fcn.State())
      ensures old(fitter.hasMinimizer) ==> (r.Throws? <==> !AllRealVar(fcn.floatList, old(fcn.model.params)))
      ensures old(fitter.hasMinimizer) ==> fcn.SyncedFrom(old(fcn.model.params), old(fcn.Lists()), old(fitter.settings), old(fcn.model.optimizations), optConst, fitter.settings)
      ensures old(fitter.hasMinimizer) && r.Throws? ==>
        && r.reason == NotRealVar && status == old(status) && history == old(history)
        && fitter.State() == old(fitter.State())
        && fcn.model.params == old(fcn.model.params) && fcn.model.evalError == old(fcn.model.evalError)
        && fcn.model.numEvalErrors == old(fcn.model.numEvalErrors)
        && fcn.maxFCN == old(fcn.maxFCN) && fcn.numBadNLL == old(fcn.numBadNLL)
      ensures old(fitter.hasMinimizer) && r.Returns? ==>
        && RunApplied(old(fcn.model.params), run.result) && fcn.model.numEvalErrors == 0
        && fcn.maxFCN >= old(fcn.maxFCN)
        && old(fcn.numBadNLL) <= fcn.numBadNLL <= old(fcn.numBadNLL) + |run.points|
        && fitter.result == run.result && fitter.resultStatus == run.status && fitter.resultEdm == run.edm
        && status == (if run.ok then run.status else -1) && r.value == status
        && history == old(history) + [("MINOS", status)]
        && fitter.minimizerType == minimizerType && fitter.minosIndices == old(fitter.minosIndices)
        && fitter.calls == old(fitter.calls) + [EngineCall.Minos(minimizerType, old(fitter.minosIndices))]
    {
      if !fitter.hasMinimizer {
        status := -1;
        return Returns(status);
      }
      r := MinosWith(run);
    }

    /** The body of `Minos` with a minimizer present: synchronize, then run
        Minos on the selection configured before. */
    method MinosWith(run: EngineRun) returns (r: Call<int>)
      requires Valid()
      modifies this`status, this`history, fitter`settings, fitter`minimizerType, fitter`minosIndices
      modifies fitter`resultStatus, fitter`resultEdm, fitter`result, fitter`calls
      modifies fcn`constList, fcn`floatList, fcn`initConstList, fcn`initFloatList, fcn`nDim, fcn`vars, fcn`vals
      modifies fcn`maxFCN, fcn`numBadNLL
      modifies fcn.model`params, fcn.model`optimizations, fcn.model`evalError, fcn.model`numEvalErrors
      ensures Valid()
      ensures ValuesMoved(old(fcn.model.params), fcn.model.params)
      ensures r.Throws? <==> !AllRealVar(fcn.floatList, old(fcn.model.params))
      ensures fcn.SyncedFrom(old(fcn.model.params), old(fcn.Lists()), old(fitter.settings), old(fcn.model.optimizations), optConst, fitter.settings)
      ensures r.Throws? ==>
        && r.reason == NotRealVar && status == old(status) && history == old(history)
        && fitter.State() == old(fitter.State())
        && fcn.model.params == old(fcn.model.params) && fcn.model.evalError == old(fcn.model.evalError)
        && fcn.model.numEvalErrors == old(fcn.model.numEvalErrors)
        && fcn.maxFCN == old(fcn.maxFCN) && fcn.numBadNLL == old(fcn.numBadNLL)
      ensures r.Returns? ==>
        && RunApplied(old(fcn.model.params), run.result) && fcn.model.numEvalErrors == 0
        && fcn.maxFCN >= old(fcn.maxFCN)
        && old(fcn.numBadNLL) <= fcn.numBadNLL <= old(fcn.numBadNLL) + |run.points|
        && fitter.result == run.result && fitter.resultStatus == run.status && fitter.resultEdm == run.edm
        && status == (if run.ok then run.status else -1) && r.value == status
        && history == old(history) + [("MINOS", status)]
        && fitter.minimizerType == minimizerType && fitter.minosIndices == old(fitter.minosIndices)
        && fitter.calls == old(fitter.calls) + [EngineCall.Minos(minimizerType, old(fitter.minosIndices))]
    {
      var ok := SyncEngine();
      if !ok {
        return Throws(NotRealVar);
      }
      MinosOn(fitter.minosIndices, run);
      r := Returns(status);
    }

    /** Floating-list positions of the requested names that are on the
        floating list and not constant, in request order. */
    method SelectMinosIndices(names: seq<string>) returns (paramInd: seq<nat>)
      requires Valid()
      ensures paramInd == MinosIndices(fcn.floatList, fcn.model.params, names)
      ensures forall i :: 0 <= i < |paramInd| ==>
        paramInd[i] < |fcn.floatList| && fcn.floatList[paramInd[i]] in names
        && !fcn.model.params[fcn.floatList[paramInd[i]]].isConst
    {
      var f, ps := fcn.floatList, fcn.model.params;
      paramInd := [];
      var i := 0;
      while i < |names|
        invariant 0 <= i <= |names|
        invariant paramInd == MinosIndices(f, ps, names[..i])
      {
        var k := IndexOf(f, names[i]);
        if k < |f| && !ps[f[k]].isConst {
          paramInd := paramInd + [k];
        }
        assert names[..i + 1][..i] == names[..i];
        i := i + 1;
      }
      assert names[..|names|] == names;
      MinosIndicesSound(f, ps, names);
    }

    /** Minos after a successful synchronization: run it on the
        floating-list positions `paramInd`, with the engine's evaluations
        of the objective at its trial points, take the engine's status, or
        -1 when it fails, write the result back and record the status. */
    method MinosOn(paramInd: seq<nat>, run: EngineRun)
      requires fcn.Ready() && Coherent(fcn.model.params, fcn.vars, fcn.vals)
      modifies this`status, this`history, fitter`minosIndices, fitter`minimizerType
      modifies fitter`resultStatus, fitter`resultEdm, fitter`result, fitter`calls
      modifies fcn`vals, fcn`maxFCN, fcn`numBadNLL, fcn.model`params, fcn.model`evalError, fcn.model`numEvalErrors
      ensures RunApplied(old(fcn.model.params), run.result) && ValuesMoved(old(fcn.model.params), fcn.model.params)
      ensures fcn.maxFCN >= old(fcn.maxFCN) && old(fcn.numBadNLL) <= fcn.numBadNLL <= old(fcn.numBadNLL) + |run.points|
      ensures old(fcn.model.numEvalErrors) == 0 ==> fcn.model.numEvalErrors == 0
      ensures fitter.minosIndices == paramInd && fitter.minimizerType == minimizerType
      ensures fitter.resultStatus == run.status && fitter.resultEdm == run.edm && fitter.result == run.result
      ensures status == (if run.ok then run.status else -1)
      ensures history == old(history) + [("MINOS", status)]
      ensures fitter.calls == old(fitter.calls) + [EngineCall.Minos(minimizerType, paramInd)]
      ensures fcn.Lists() == old(fcn.Lists()) && fcn.model.optimizations == old(fcn.model.optimizations) && fitter.settings == old(fitter.settings)
      ensures fitter.algorithm == old(fitter.algorithm) && fitter.hasMinimizer == old(fitter.hasMinimizer)
    {
      ghost var ps0 := fcn.model.params;
      fitter.minosIndices := paramInd;
      fitter.minimizerType := minimizerType;
      fcn.EvalPoints(run.points);
      var ret := fitter.CalculateMinosErrors(run);
      status := if ret then fitter.resultStatus else -1;
      Conclude(ps0, "MINOS");
    }

    /** Minos errors for the named parameters. Without a minimizer the
        status is -1; with an empty request nothing happens; otherwise the
        engine runs only when some name resolves to a non-constant floating
        parameter, restricted to exactly those positions, and the engine's
        last result is written back in either case. */
    method MinosSubset(names: seq<string>, run: EngineRun) returns (r: Call<int>)
      requires Valid()
      modifies this`status, this`history, fitter`settings, fitter`minimizerType, fitter`minosIndices
      modifies fitter`resultStatus, fitter`resultEdm, fitter`result, fitter`calls
      modifies fcn`constList, fcn`floatList, fcn`initConstList, fcn`initFloatList, fcn`nDim, fcn`vars, fcn`vals
      modifies fcn`maxFCN, fcn`numBadNLL
      modifies fcn.model`params, fcn.model`optimizations, fcn.model`evalError, fcn.model`numEvalErrors
      ensures Valid()
      ensures fitter.hasMinimizer == old(fitter.hasMinimizer)
      ensures ValuesMoved(old(fcn.model.params), fcn.model.params)
      ensures !old(fitter.hasMinimizer) || names == [] ==>
        && r == Returns(status) && status == (if old(fitter.hasMinimizer) then old(status) else -1)
        && history == old(history)
        && fitter.State() == old(fitter.State()) && fitter.settings == old(fitter.settings)
        && fcn.State() == old(fcn.State())
      ensures old(fitter.hasMinimizer) && names != [] ==>
        (r.Throws? <==> !AllRealVar(fcn.floatList, old(fcn.model.params)))
      ensures old(fitter.hasMinimizer) && names != [] ==>
        fcn.SyncedFrom(old(fcn.model.params), old(fcn.Lists()), old(fitter.settings), old(fcn.model.optimizations), optConst, fitter.settings)
      ensures old(fitter.hasMinimizer) && names != [] && r.Throws? ==>
        && r.reason == NotRealVar && status == old(status) && history == old(history)
        && fitter.State() == old(fitter.State())
        && fcn.model.params == old(fcn.model.params) && fcn.model.evalError == old(fcn.model.evalError)
        && fcn.model.numEvalErrors == old(fcn.model.numEvalErrors)
        && fcn.maxFCN == old(fcn.maxFCN) && fcn.numBadNLL == old(fcn.numBadNLL)
      ensures old(fitter.hasMinimizer) && names != [] && r.Returns? ==>
        var ind := MinosIndices(fcn.floatList, old(fcn.model.params), names);
        && fcn.Ready() && fcn.model.numEvalErrors == 0
        && r.value == status && history == old(history) + [("MINOS", status)]
        && (ind == [] ==>
              && fcn.model.params == BackPropLoop(old(fcn.model.params), fcn.model.setRule, fcn.floatList, old(fitter.result), 0)
              && status == old(status) && fitter.State() == old(fitter.State())
              && fcn.maxFCN == old(fcn.maxFCN) && fcn.numBadNLL == old(fcn.numBadNLL))
        && (ind != [] ==>
              && RunApplied(old(fcn.model.params), run.result)
              && fcn.maxFCN >= old(fcn.maxFCN)
              && old(fcn.numBadNLL) <= fcn.numBadNLL <= old(fcn.numBadNLL) + |run.points|
              && fitter.result == run.result && fitter.resultStatus == run.status && fitter.resultEdm == run.edm
              && fitter.minosIndices == ind && fitter.minimizerType == minimizerType
              && status == (if run.ok then run.status else -1)
              && fitter.calls == old(fitter.calls) + [EngineCall.Minos(minimizerType, ind)])
    {
      if !fitter.hasMinimizer {
        status := -1;
        return Returns(status);
      }
      if |names| > 0 {
        r := MinosNamed(names, run);
      } else {
        r := Returns(status);
      }
    }

    /** The body of `MinosSubset` for a non-empty request: synchronize,
        select the positions, run Minos on them when there are any, and
        write the engine's last result back. */
    method MinosNamed(names: seq<string>, run: EngineRun) returns (r: Call<int>)
      requires Valid()
      modifies this`status, this`history, fitter`settings, fitter`minimizerType, fitter`minosIndices
      modifies fitter`resultStatus, fitter`resultEdm, fitter`result, fitter`calls
      modifies fcn`constList, fcn`floatList, fcn`initConstList, fcn`initFloatList, fcn`nDim, fcn`vars, fcn`vals
      modifies fcn`maxFCN, fcn`numBadNLL
      modifies fcn.model`params, fcn.model`optimizations, fcn.model`evalError, fcn.model`numEvalErrors
      ensures Valid()
      ensures fcn.SyncedFrom(old(fcn.model.params), old(fcn.Lists()), old(fitter.settings), old(fcn.model.optimizations), optConst, fitter.settings)
      ensures ValuesMoved(old(fcn.model.params), fcn.model.params)
      ensures r.Throws? <==> !AllRealVar(fcn.floatList, old(fcn.model.params))
      ensures r.Throws? ==>
        && r.reason == NotRealVar && status == old(status) && history == old(history)
        && fitter.State() == old(fitter.State())
        && fcn.model.params == old(fcn.model.params) && fcn.model.evalError == old(fcn.model.evalError)
        && fcn.model.numEvalErrors == old(fcn.model.numEvalErrors)
        && fcn.maxFCN == old(fcn.maxFCN) && fcn.numBadNLL == old(fcn.numBadNLL)
      ensures r.Returns? ==>
        var ind := MinosIndices(fcn.floatList, old(fcn.model.params), names);
        && fcn.Ready() && fcn.model.numEvalErrors == 0
        && r.value == status && history == old(history) + [("MINOS", status)]
        && (ind == [] ==>
              && fcn.model.params == BackPropLoop(old(fcn.model.params), fcn.model.setRule, fcn.floatList, old(fitter.result), 0)
              && status == old(status) && fitter.State() == old(fitter.State())
              && fcn.maxFCN == old(fcn.maxFCN) && fcn.numBadNLL == old(fcn.numBadNLL))
        && (ind != [] ==>
              && RunApplied(old(fcn.model.params), run.result)
              && fcn.maxFCN >= old(fcn.maxFCN)
              && old(fcn.numBadNLL) <= fcn.numBadNLL <= old(fcn.numBadNLL) + |run.points|
              && fitter.result == run.result && fitter.resultStatus == run.status && fitter.resultEdm == run.edm
              && fitter.minosIndices == ind && fitter.minimizerType == minimizerType
              && status == (if run.ok then run.status else -1)
              && fitter.calls == old(fitter.calls) + [EngineCall.Minos(minimizerType, ind)])
    {
      ghost var ps0 := fcn.model.params;
      var ok := SyncEngine();
      if !ok {
        return Throws(NotRealVar);
      }
      var paramInd := SelectMinosIndices(names);
      if |paramInd| > 0 {
        MinosOn(paramInd, run);
      } else {
        DistinctParts(fcn.constList, fcn.floatList);
        CoherentAtCache(ps0, fcn.vars, fcn.vals);
        Conclude(ps0, "MINOS");
      }
      r := Returns(status);
    }

    /** Engine strategy. */
    method SetStrategy(istrat: int)
      modifies fitter`strategy
      ensures fitter.strategy == istrat
    {
      fitter.strategy := istrat;
    }

    /** Error definition (the objective change that defines one sigma). */
    method SetErrorLevel(level: real)
      modifies fitter`errorDef
      ensures fitter.errorDef == level
    {
      fitter.errorDef := level;
    }

    /** Engine tolerance. */
    method SetEps(eps: real)
      modifies fitter`tolerance
      ensures fitter.tolerance == eps
    {
      fitter.tolerance := eps;
    }

    /** Set the print level to one above `newLevel`, in the driver and the
        engine, and return the previous driver level. */
    method SetPrintLevel(newLevel: int) returns (ret: int)
      modifies this`printLevel, fitter`printLevel
      ensures ret == old(printLevel)
      ensures printLevel == newLevel + 1 && fitter.printLevel == newLevel + 1
    {
      ret := printLevel;
      fitter.printLevel := newLevel + 1;
      printLevel := newLevel + 1;
    }
  }
}
