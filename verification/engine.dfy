/**
 * The external minimizer engine, reduced to what the adapter touches: its
 * configuration (the positional parameter settings, the algorithm choice,
 * the options and the Minos parameter selection) and three operations
 * whose outcome is supplied from outside, since the numerical work is not
 * part of this model.
 */
module Engine {
  import opened Params

  /** What the engine's result holds for one floating position: the
      fitted value and its parabolic error. */
  datatype ParamResult = ParamResult(value: real, error: real)

  /** What happens in one engine operation: the trial points at which the
      engine evaluates the objective, in order; whether it succeeded; the
      status, the estimated distance to minimum and the per-position values
      of its result; and whether a minimizer instance exists afterwards. */
  datatype EngineRun = EngineRun(points: seq<seq<real>>, ok: bool, status: int, edm: real,
                                 result: seq<ParamResult>, minimizerExists: bool)

  /** The part of the engine that its operations change: algorithm choice,
      Minos selection, minimizer presence, the last result and the calls
      launched. */
  datatype EngineState = EngineState(minimizerType: string, algorithm: string, minosIndices: seq<nat>,
                                     hasMinimizer: bool, resultStatus: int, resultEdm: real,
                                     result: seq<ParamResult>, calls: seq<EngineCall>)

  /** The engine operations the adapter launches, in the order launched. */
  datatype EngineCall =
    | Fit(minimizerType: string, algorithm: string)
    | Hesse(minimizerType: string)
    | Minos(minimizerType: string, indices: seq<nat>)

  class Fitter {
    var settings: seq<ParamSetting>
    var minimizerType: string
    var algorithm: string
    var minosIndices: seq<nat>
    var maxIterations: int
    var maxFunctionCalls: int
    var tolerance: real
    var printLevel: int
    var strategy: int
    var errorDef: real
    var hasMinimizer: bool
    var resultStatus: int
    var resultEdm: real
    var result: seq<ParamResult>
    var calls: seq<EngineCall>

    /** The fields the engine operations and the driver's algorithm choice
        change. */
    ghost function State(): EngineState
      reads this`minimizerType, this`algorithm, this`minosIndices, this`hasMinimizer
      reads this`resultStatus, this`resultEdm, this`result, this`calls
    {
      EngineState(minimizerType, algorithm, minosIndices, hasMinimizer, resultStatus, resultEdm, result, calls)
    }

    /** A fresh engine: no settings, no minimizer, nothing launched. */
    constructor ()
      ensures settings == [] && minosIndices == [] && calls == [] && result == []
      ensures !hasMinimizer
    {
      settings := [];
      minimizerType := "";
      algorithm := "";
      minosIndices := [];
      maxIterations := 0;
      maxFunctionCalls := 0;
      tolerance := 0.0;
      printLevel := 0;
      strategy := 0;
      errorDef := 0.0;
      hasMinimizer := false;
      resultStatus := 0;
      resultEdm := 0.0;
      result := [];
      calls := [];
    }

    /** Minimize with the configured minimizer and algorithm. */
    method FitFCN(run: EngineRun) returns (ok: bool)
      modifies this`hasMinimizer, this`resultStatus, this`resultEdm, this`result, this`calls
      ensures ok == run.ok
      ensures hasMinimizer == run.minimizerExists
      ensures resultStatus == run.status && resultEdm == run.edm && result == run.result
      ensures calls == old(calls) + [Fit(minimizerType, algorithm)]
    {
      ok := run.ok;
      hasMinimizer := run.minimizerExists;
      resultStatus, resultEdm, result := run.status, run.edm, run.result;
      calls := calls + [Fit(minimizerType, algorithm)];
    }

    /** Compute the Hesse errors at the current minimum. */
    method CalculateHessErrors(run: EngineRun) returns (ok: bool)
      modifies this`resultStatus, this`resultEdm, this`result, this`calls
      ensures ok == run.ok
      ensures resultStatus == run.status && resultEdm == run.edm && result == run.result
      ensures calls == old(calls) + [Hesse(minimizerType)]
    {
      ok := run.ok;
      resultStatus, resultEdm, result := run.status, run.edm, run.result;
      calls := calls + [Hesse(minimizerType)];
    }

    /** Compute the Minos errors for the selected parameters. */
    method CalculateMinosErrors(run: EngineRun) returns (ok: bool)
      modifies this`resultStatus, this`resultEdm, this`result, this`calls
      ensures ok == run.ok
      ensures resultStatus == run.status && resultEdm == run.edm && result == run.result
      ensures calls == old(calls) + [Minos(minimizerType, minosIndices)]
    {
      ok := run.ok;
      resultStatus, resultEdm, result := run.status, run.edm, run.result;
      calls := calls + [Minos(minimizerType, minosIndices)];
    }
  }
}
