/**
 * The objective adapter between the fit driver and the minimizer engine:
 * it keeps the constant and floating parameter lists in step with the
 * engine's settings vector (Synchronize), caches the committed coordinate
 * values (InitStdVects), and evaluates the objective at a trial point
 * (DoEval).
 */
module MinimizerFcn {
  import opened Params
  import opened SyncSpec
  import opened EvalSpec
  import opened Engine

  /** What one evaluation of the objective reports: its value, whether it
      raised the model's error flag, and how many evaluation errors it
      logged. */
  datatype Evaluation = Evaluation(value: real, raisesError: bool, errorsLogged: nat)

  /** The statistical model the adapter drives: its named parameters, the
      evaluation-error channel (a flag and a log count), and the
      notifications its constant-term optimizer has received. How a
      parameter adjusts a value it is given (`setRule`) and what the model
      evaluates to (`objective`) are supplied from outside. */
  class Model {
    var params: map<string, Param>
    var evalError: bool
    var numEvalErrors: nat
    var optimizations: seq<OptChange>
    const setRule: SetRule
    const objective: map<string, Param> -> Evaluation

    constructor (params: map<string, Param>, setRule: SetRule,
                 objective: map<string, Param> -> Evaluation)
      ensures this.params == params && this.setRule == setRule && this.objective == objective
      ensures !evalError && numEvalErrors == 0 && optimizations == []
    {
      this.params := params;
      this.setRule := setRule;
      this.objective := objective;
      evalError := false;
      numEvalErrors := 0;
      optimizations := [];
    }

    /** Ask parameter `n` to take `x`; it takes what the setter allows. */
    method SetVal(n: string, x: real)
      requires n in params
      modifies this`params
      ensures params == old(params)[n := old(params)[n].(value := setRule(old(params)[n], x))]
    {
      params := params[n := params[n].(value := setRule(params[n], x))];
    }

    /** Give parameter `n` the error estimate `e`. */
    method SetError(n: string, e: real)
      requires n in params
      modifies this`params
      ensures params == old(params)[n := old(params)[n].(error := e)]
    {
      params := params[n := params[n].(error := e)];
    }

    /** Write one position of an engine result into parameter `n`: ask it
        to take the result's value when that differs from its own, then
        give it the result's error. */
    method WriteBack(n: string, pr: ParamResult)
      requires n in params
      modifies this`params
      ensures params == old(params)[n := Written(setRule, old(params)[n], pr)]
    {
      if params[n].value != pr.value {
        SetVal(n, pr.value);
      }
      SetError(n, pr.error);
    }

    /** Write an engine result back position by position over the names
        `f`, as far as the result reaches. */
    method WriteResult(f: seq<string>, res: seq<ParamResult>)
      requires AllIn(f, params)
      modifies this`params
      ensures params == BackPropLoop(old(params), setRule, f, res, 0)
    {
      ghost var ps0 := params;
      var index := 0;
      while index < |f| && index < |res|
        invariant 0 <= index <= |f|
        invariant params.Keys == ps0.Keys
        invariant BackPropLoop(params, setRule, f, res, index) == BackPropLoop(ps0, setRule, f, res, 0)
      {
        ghost var before := params;
        WriteBack(f[index], res[index]);
        assert BackPropLoop(before, setRule, f, res, index) == BackPropLoop(params, setRule, f, res, index + 1);
        index := index + 1;
      }
    }

    /** Evaluate the model at its current parameters. */
    method GetVal() returns (f: real)
      modifies this`evalError, this`numEvalErrors
      ensures f == objective(params).value
      ensures evalError == (old(evalError) || objective(params).raisesError)
      ensures numEvalErrors == old(numEvalErrors) + objective(params).errorsLogged
    {
      var o := objective(params);
      f := o.value;
      evalError := evalError || o.raisesError;
      numEvalErrors := numEvalErrors + o.errorsLogged;
    }

    /** Clear the error flag and the error log. */
    method ClearEvalErrors()
      modifies this`evalError, this`numEvalErrors
      ensures !evalError && numEvalErrors == 0
    {
      evalError := false;
      numEvalErrors := 0;
    }

    /** Clear the error log only; the error flag stays as it is. */
    method ClearEvalErrorLog()
      modifies this`numEvalErrors
      ensures numEvalErrors == 0
    {
      numEvalErrors := 0;
    }

    /** Notify the constant-term optimizer of a change. */
    method ConstOptimize(change: OptChange)
      modifies this`optimizations
      ensures optimizations == old(optimizations) + [change]
    {
      optimizations := optimizations + [change];
    }
  }

  /** Index of the first name that is not of the concrete real kind, or the
      length when there is none. */
  function FirstNonReal(names: seq<string>, ps: map<string, Param>): (k: nat)
    requires AllIn(names, ps)
    ensures k <= |names|
    ensures forall j :: 0 <= j < k ==> ps[names[j]].isRealVar
    ensures k < |names| ==> !ps[names[k]].isRealVar
  {
    if names == [] || !ps[names[0]].isRealVar then 0
    else 1 + FirstNonReal(names[1..], ps)
  }

  /** `s` resized to `n` entries, new entries being `d`. */
  function Resized<T>(s: seq<T>, n: nat, d: T): (r: seq<T>)
    ensures |r| == n
    ensures forall j :: 0 <= j < n ==> r[j] == if j < |s| then s[j] else d
  {
    if n <= |s| then s[..n] else s + seq(n - |s|, _ => d)
  }

  /** Everything of the adapter and its model that an engine operation may
      change: lists, snapshots and dimension, cache, running maximum and
      bad-evaluation count, parameters, error channel and notifications. */
  datatype AdapterState = AdapterState(lists: MigState, vars: seq<string>, vals: seq<real>,
                                       maxFCN: real, numBadNLL: int, params: map<string, Param>,
                                       evalError: bool, numEvalErrors: nat, optimizations: seq<OptChange>)

  class FcnOpt {
    const model: Model
    var constList: seq<string>
    var floatList: seq<string>
    var initConstList: seq<Param>
    var initFloatList: seq<Param>
    var nDim: int
    var vars: seq<string>
    var vals: seq<real>
    var maxFCN: real
    var numBadNLL: int
    var printEvalErrors: int
    var doEvalErrorWall: bool

    /** Every listed name denotes a model parameter, no parameter is listed
        twice (the two lists partition one parameter set), every parameter
        is stored under its own name, and the dimension is the length of the
        floating list. */
    ghost predicate Valid()
      reads this`constList, this`floatList, this`nDim, model`params
    {
      && AllIn(constList, model.params) && AllIn(floatList, model.params)
      && Distinct(constList + floatList) && NamesKeyed(model.params)
      && nDim == |floatList|
    }

    /** Valid, and the evaluation cache covers the floating list. */
    ghost predicate Ready()
      reads this`constList, this`floatList, this`nDim, this`vars, this`vals, model`params
    {
      Valid() && vars == floatList && |vals| == |vars|
    }

    /** The engine's settings line up with the floating list's values. */
    ghost predicate InSync(settings: seq<ParamSetting>)
      reads this`constList, this`floatList, this`nDim, model`params
      requires Valid()
    {
      |settings| >= |floatList|
      && forall j :: 0 <= j < |floatList| ==> settings[j].value == model.params[floatList[j]].value
    }

    /** The adapter over a model whose parameters have been split into a
        constant and a floating list; the reference snapshots are taken now
        and the cache is empty until the first synchronization. */
    constructor (model: Model, constList: seq<string>, floatList: seq<string>,
                 maxFCN: real, printEvalErrors: int, doEvalErrorWall: bool)
      requires AllIn(constList, model.params) && AllIn(floatList, model.params)
      requires Distinct(constList + floatList) && NamesKeyed(model.params)
      ensures Valid() && this.model == model
      ensures this.constList == constList && this.floatList == floatList
      ensures initConstList == Snapshot(model.params, constList)
      ensures initFloatList == Snapshot(model.params, floatList)
      ensures vars == [] && vals == [] && numBadNLL == 0
      ensures this.maxFCN == maxFCN && this.printEvalErrors == printEvalErrors
      ensures this.doEvalErrorWall == doEvalErrorWall
    {
      this.model := model;
      this.constList := constList;
      this.floatList := floatList;
      initConstList := Snapshot(model.params, constList);
      initFloatList := Snapshot(model.params, floatList);
      nDim := |floatList|;
      vars := [];
      vals := [];
      this.maxFCN := maxFCN;
      numBadNLL := 0;
      this.printEvalErrors := printEvalErrors;
      this.doEvalErrorWall := doEvalErrorWall;
    }

    /** Rebuild the evaluation cache from the floating list; fails (where
        `RooMinimizerFcnOpt::initStdVects` throws `std::logic_error`) at the first entry not of the concrete real kind,
        leaving the entries before it filled. */
    method InitStdVects() returns (ok: bool)
      requires Valid()
      modifies this`vars, this`vals
      ensures ok <==> AllRealVar(floatList, model.params)
      ensures Lists() == old(Lists())
      ensures ok ==> Ready() && Coherent(model.params, vars, vals)
      ensures !ok ==>
        var n, k := |floatList|, FirstNonReal(floatList, model.params);
        && |vars| == n && |vals| == n
        && vars[..k] == floatList[..k]
        && (forall j :: 0 <= j < k ==> vals[j] == model.params[floatList[j]].value)
        && vars[k..] == Resized(old(vars), n, "")[k..]
        && vals[k..] == Resized(old(vals), n, 0.0)[k..]
    {
      var f, ps := floatList, model.params;
      var n := |f|;
      var vs, ws := Resized(vars, n, ""), Resized(vals, n, 0.0);
      ghost var vs0, ws0 := vs, ws;
      var i := 0;
      while i < n
        invariant 0 <= i <= n && |vs| == n && |ws| == n
        invariant forall j :: 0 <= j < i ==> vs[j] == f[j] && ws[j] == ps[f[j]].value
        invariant forall j :: 0 <= j < i ==> ps[f[j]].isRealVar
        invariant forall j :: i <= j < n ==> vs[j] == vs0[j] && ws[j] == ws0[j]
      {
        var p := ps[f[i]];
        if !p.isRealVar {
          assert FirstNonReal(f, ps) == i;
          vars, vals := vs, ws;
          assert vars[..i] == f[..i];
          return false;
        }
        vs := vs[i := f[i]];
        ws := ws[i := p.value];
        i := i + 1;
      }
      vars, vals := vs, ws;
      assert vars == f;
      return true;
    }

    /** The migration pass: a constant-list parameter that is no longer
        constant moves to the end of the floating list, and a value that
        differs from its snapshot raises the value-change flag; then the
        constant snapshots are refreshed. */
    method MigrateConstants() returns (constStatChange: bool, constValChange: bool)
      requires Valid()
      modifies this`constList, this`floatList, this`initConstList, this`initFloatList, this`nDim
      ensures Valid()
      ensures
        var m := MigrateLoop(model.params,
                   MigState(old(constList), old(initConstList), old(floatList), old(initFloatList),
                            old(nDim), false, false), 0);
        && constList == m.constList && floatList == m.floatList
        && initFloatList == m.initFloat && nDim == m.nDim
        && constStatChange == m.statChange && constValChange == m.valChange
        && initConstList == Snapshot(model.params, constList)
    {
      var ps := model.params;
      var m0 := MigState(constList, initConstList, floatList, initFloatList, nDim, false, false);
      var m := MigrateLists(ps, m0);
      MigratePartition(ps, m0, 0);
      MigrateKeepsDistinct(ps, m0);
      constList, floatList, initFloatList, nDim := m.constList, m.floatList, m.initFloat, m.nDim;
      constStatChange, constValChange := m.statChange, m.valChange;
      initConstList := Snapshot(ps, constList);
    }

    /** The loop of the migration pass over local copies `s0` of the lists,
        snapshots and dimension, with both flags lowered. */
    static method MigrateLists(ps: map<string, Param>, s0: MigState) returns (m: MigState)
      requires AllIn(s0.constList, ps) && !s0.statChange && !s0.valChange
      ensures m == MigrateLoop(ps, s0, 0)
    {
      var constValChange, constStatChange := false, false;
      var cl, icl, fl, ifl, nd := s0.constList, s0.initConst, s0.floatList, s0.initFloat, s0.nDim;
      var index := 0;
      while index < |cl|
        invariant AllIn(cl, ps)
        invariant MigrateLoop(ps, MigState(cl, icl, fl, ifl, nd, constStatChange, constValChange), index)
                  == MigrateLoop(ps, s0, 0)
        decreases |cl| - index
      {
        ghost var before := MigState(cl, icl, fl, ifl, nd, constStatChange, constValChange);
        var par := ps[cl[index]];
        if !par.isRealVar || index >= |icl| || !icl[index].isRealVar {
          assert MigrateStep(ps, before, index) == before;
          index := index + 1;
          continue;
        }
        var oldpar := icl[index];
        if !par.isConst {
          fl := fl + [cl[index]];
          ifl := ifl + [oldpar];
          cl := RemoveAt(cl, index);
          icl := RemoveAt(icl, index);
          constStatChange := true;
          nd := nd + 1;
        }
        if par.value != oldpar.value {
          constValChange := true;
        }
        assert MigrateStep(ps, before, index) == MigState(cl, icl, fl, ifl, nd, constStatChange, constValChange);
        index := index + 1;
      }
      m := MigState(cl, icl, fl, ifl, nd, constStatChange, constValChange);
    }

    /** Step and limits offered to the engine for `par`: for a floating
        parameter its bounds where it has them and its error estimate or
        else the default step; for a constant one step 0 and its value as
        both limits. */
    static method StepAndLimits(par: Param) returns (pstep: real, pmin: real, pmax: real)
      ensures pstep == StepOf(par) && pmin == LowerOf(par) && pmax == UpperOf(par)
      ensures !par.isConst && par.error > 0.0 ==> pstep == par.error
      ensures par.isConst ==> pstep == 0.0 && pmin == par.value && pmax == par.value
    {
      pstep, pmin, pmax := 0.0, 0.0, 0.0;
      if !par.isConst {
        if par.hasMin { pmin := par.min; }
        if par.hasMax { pmax := par.max; }
        pstep := par.error;
        if pstep <= 0.0 {
          pstep := DefaultStep(par);
        }
      } else {
        pmin := par.value;
        pmax := par.value;
      }
    }

    /** The settings entry for a parameter the engine has no entry for. */
    static method NewSetting(par: Param) returns (e: ParamSetting)
      ensures e == NewEntry(par)
      ensures e.value == par.value && !e.fixed
      ensures (e.hasLower <==> par.hasMin) && (e.hasUpper <==> par.hasMax)
    {
      var pstep, pmin, pmax := StepAndLimits(par);
      if par.hasMin && par.hasMax {
        e := Bounded(par.name, par.value, pstep, pmin, pmax);
      } else {
        e := Unbounded(par.name, par.value, pstep);
        if par.hasMin {
          e := e.WithLowerLimit(pmin);
        } else if par.hasMax {
          e := e.WithUpperLimit(pmax);
        }
      }
    }

    /** Apply the deltas between `par` and its existing entry `entry`, and
        report whether the fixed state flipped (set change) or a fixed value
        moved (value change). */
    static method SyncSetting(par: Param, entry: ParamSetting) returns (e: ParamSetting, statChange: bool, valChange: bool)
      ensures (e, statChange, valChange) == UpdateEntry(par, entry)
      ensures e.value == par.value && e.fixed == par.isConst
      ensures statChange <==> FixFlips(par, entry)
      ensures valChange <==> FixedValueMoves(par, entry)
    {
      var pstep, pmin, pmax := StepAndLimits(par);
      e := entry;
      statChange, valChange := false, false;
      var oldFixed, oldVar, oldVerr, oldVlo, oldVhi := entry.fixed, entry.value, entry.step, entry.lower, entry.upper;
      if par.isConst && !oldFixed {
        // floating -> constant: update the value if necessary, then fix
        if oldVar != par.value {
          e := e.(value := par.value);
        }
        e := e.(fixed := true);
        statChange := true;
      } else if par.isConst && oldFixed {
        // constant -> constant: update the value if necessary
        if oldVar != par.value {
          e := e.(value := par.value);
          valChange := true;
        }
      } else {
        if !par.isConst && oldFixed {
          // constant -> floating
          e := e.(fixed := false);
          statChange := true;
        }
        if oldVar != par.value || oldVlo != pmin || oldVhi != pmax || oldVerr != pstep {
          e := e.(value := par.value);
          e := e.(step := pstep);
          if par.hasMin && par.hasMax {
            e := e.WithLimits(pmin, pmax);
          } else if par.hasMin {
            e := e.WithLowerLimit(pmin);
          } else if par.hasMax {
            e := e.WithUpperLimit(pmax);
          }
        }
      }
      UpdateEntryAgrees(par, entry);
    }

    /** The settings pass: walk the floating list aligned with the engine's
        settings, skipping entries not of the concrete real kind, appending
        missing entries and applying deltas to existing ones. */
    method ReconcileSettings(fitter: Fitter, statIn: bool, valIn: bool)
      returns (constStatChange: bool, constValChange: bool)
      requires Valid()
      modifies fitter`settings
      ensures RecState(fitter.settings, constStatChange, constValChange)
              == ReconcileLoop(model.params, floatList, RecState(old(fitter.settings), statIn, valIn), 0)
    {
      var ps := model.params;
      constStatChange, constValChange := statIn, valIn;
      ghost var r0 := RecState(fitter.settings, statIn, valIn);
      var index := 0;
      while index < |floatList|
        invariant ReconcileLoop(ps, floatList, RecState(fitter.settings, constStatChange, constValChange), index)
                  == ReconcileLoop(ps, floatList, r0, 0)
        decreases |floatList| - index
      {
        var par := ps[floatList[index]];
        if !par.isRealVar {
          index := index + 1;
          continue;
        }
        if index >= |fitter.settings| {
          // new parameter
          var e := NewSetting(par);
          fitter.settings := fitter.settings + [e];
          index := index + 1;
          continue;
        }
        var e, sc, vc := SyncSetting(par, fitter.settings[index]);
        fitter.settings := fitter.settings[index := e];
        constStatChange := constStatChange || sc;
        constValChange := constValChange || vc;
        index := index + 1;
      }
    }

    /** Tell the constant-term optimizer what changed, when it is on: a set
        change takes precedence over a value change. */
    method Notify(optConst: bool, constStatChange: bool, constValChange: bool)
      modifies model`optimizations
      ensures model.optimizations == old(model.optimizations) + Notification(optConst, constStatChange, constValChange)
    {
      if optConst {
        if constStatChange {
          model.ConstOptimize(ConfigChange);
        } else if constValChange {
          model.ConstOptimize(ValueChange);
        }
      }
    }

    /** The lists, snapshots and dimension as the migration pass sees them,
        with both flags lowered. */
    ghost function Lists(): MigState
      reads this`constList, this`initConstList, this`floatList, this`initFloatList, this`nDim
    {
      MigState(constList, initConstList, floatList, initFloatList, nDim, false, false)
    }

    /** The adapter's and its model's changeable state. */
    ghost function State(): AdapterState
      reads this, model
    {
      AdapterState(Lists(), vars, vals, maxFCN, numBadNLL, model.params,
                   model.evalError, model.numEvalErrors, model.optimizations)
    }

    /** The state a synchronization leaves behind, with `settings` the
        engine's settings. */
    ghost function View(settings: seq<ParamSetting>): SyncView
      reads this`constList, this`initConstList, this`floatList, this`initFloatList, this`nDim, model`optimizations
    {
      SyncView(Lists(), settings, model.optimizations)
    }

    /** The lists, snapshots and dimension are those the migration pass
        makes of the earlier ones `s0` over parameters `ps`; `settings` is
        what the settings pass makes of `settings0` along the new floating
        list; and the optimizer has received, after `opt0`, the notification
        for the combined flags. */
    ghost predicate SyncedFrom(ps: map<string, Param>, s0: MigState, settings0: seq<ParamSetting>,
                               opt0: seq<OptChange>, optConst: bool, settings: seq<ParamSetting>)
      reads this`constList, this`initConstList, this`floatList, this`initFloatList, this`nDim, model`optimizations
    {
      && AllIn(s0.constList, ps) && AllIn(s0.floatList, ps)
      && View(settings) == SyncOutcome(ps, s0, settings0, opt0, optConst)
    }

    /** The two passes and the notification: migrate parameters that are no
        longer constant, reconcile the engine's settings with the floating
        list, and tell the constant-term optimizer what changed. */
    method SyncPasses(fitter: Fitter, optConst: bool) returns (r: RecState)
      requires Valid()
      modifies this`constList, this`floatList, this`initConstList, this`initFloatList, this`nDim
      modifies fitter`settings, model`optimizations
      ensures Valid()
      ensures
        var m := MigrateLoop(model.params,
                   MigState(old(constList), old(initConstList), old(floatList), old(initFloatList),
                            old(nDim), false, false), 0);
        && constList == m.constList && floatList == m.floatList
        && initFloatList == m.initFloat && nDim == m.nDim
        && initConstList == Snapshot(model.params, constList)
        && r == ReconcileLoop(model.params, m.floatList,
                  RecState(old(fitter.settings), m.statChange, m.valChange), 0)
        && fitter.settings == r.settings
        && model.optimizations == old(model.optimizations) + Notification(optConst, r.statChange, r.valChange)
    {
      var constStatChange, constValChange := MigrateConstants();
      constStatChange, constValChange := ReconcileSettings(fitter, constStatChange, constValChange);
      Notify(optConst, constStatChange, constValChange);
      r := RecState(fitter.settings, constStatChange, constValChange);
    }

    /** Reconcile the lists with the engine's settings vector: the migration
        pass, the settings pass, the notification of the constant-term
        optimizer, and the cache rebuild. Returns false always (the C++
        method returns 0); `ok` is false when the cache rebuild fails. */
    method Synchronize(fitter: Fitter, optConst: bool, verbose: bool) returns (ret: bool, ok: bool)
      requires Valid()
      modifies this`constList, this`floatList, this`initConstList, this`initFloatList, this`nDim
      modifies this`vars, this`vals, fitter`settings, model`optimizations
      ensures Valid() && !ret
      ensures model.params == old(model.params)
      ensures SyncedFrom(model.params, old(Lists()), old(fitter.settings), old(model.optimizations), optConst, fitter.settings)
      ensures maxFCN == old(maxFCN) && numBadNLL == old(numBadNLL)
      ensures model.evalError == old(model.evalError) && model.numEvalErrors == old(model.numEvalErrors)
      ensures printEvalErrors == old(printEvalErrors) && doEvalErrorWall == old(doEvalErrorWall)
      ensures ok <==> AllRealVar(floatList, model.params)
      ensures ok ==> Ready() && Coherent(model.params, vars, vals) && InSync(fitter.settings)
    {
      ghost var settings0 := fitter.settings;
      var r := SyncPasses(fitter, optConst);
      ok := InitStdVects();
      ret := false;
      if ok {
        ghost var m := MigrateLoop(model.params,
                   MigState(old(constList), old(initConstList), old(floatList), old(initFloatList),
                            old(nDim), false, false), 0);
        SettingsTrackParameters(model.params, floatList, RecState(settings0, m.statChange, m.valChange));
      }
    }

    /** Write the coordinates of the trial point `x` that differ from the
        cache into the parameters, keeping the cache in step. */
    method CommitPoint(x: seq<real>)
      requires Ready() && |x| == nDim
      modifies this`vals, model`params
      ensures Ready()
      ensures (model.params, vals) == CommitLoop(old(model.params), model.setRule, vars, old(vals), x, 0)
      ensures old(Coherent(model.params, vars, vals)) ==> Coherent(model.params, vars, vals)
    {
      ghost var ps0 := model.params;
      ghost var vals0 := vals;
      DistinctParts(constList, floatList);
      CommitKeepsShape(ps0, model.setRule, vars, vals0, x);
      if Coherent(ps0, vars, vals0) {
        CommitKeepsCoherent(ps0, model.setRule, vars, vals0, x);
      }
      var index := 0;
      while index < nDim
        invariant 0 <= index <= nDim && |vals| == nDim
        invariant model.params.Keys == ps0.Keys && AllIn(vars, model.params)
        invariant CommitLoop(model.params, model.setRule, vars, vals, x, index)
                  == CommitLoop(ps0, model.setRule, vars, old(vals), x, 0)
      {
        if vals[index] != x[index] {
          model.SetVal(vars[index], x[index]);
          vals := vals[index := model.params[vars[index]].value];
        }
        index := index + 1;
      }
      assert AllIn(constList, model.params);
    }

    /** Evaluate the objective at the trial point `x`: write the coordinates
        that differ from the cache, evaluate, and on an evaluation error
        return the running maximum (wall policy) or the raw value, clear the
        error state and count a bad evaluation; otherwise raise the running
        maximum to the value. */
    method DoEval(x: seq<real>) returns (f: real)
      requires Ready() && |x| == nDim
      modifies this`vals, this`maxFCN, this`numBadNLL
      modifies model`params, model`evalError, model`numEvalErrors
      ensures Ready()
      ensures (model.params, vals) == CommitLoop(old(model.params), model.setRule, vars, old(vals), x, 0)
      ensures
        var o := model.objective(model.params);
        var bad := old(model.evalError) || o.raisesError || old(model.numEvalErrors) + o.errorsLogged > 0;
        && (bad ==>
              && f == (if doEvalErrorWall then old(maxFCN) else o.value)
              && maxFCN == old(maxFCN) && numBadNLL == old(numBadNLL) + 1)
        && (!bad ==>
              && f == o.value
              && maxFCN == (if o.value > old(maxFCN) then o.value else old(maxFCN))
              && numBadNLL == old(numBadNLL))
      ensures !model.evalError && model.numEvalErrors == 0
      ensures maxFCN >= old(maxFCN)
      ensures old(Coherent(model.params, vars, vals)) ==> Coherent(model.params, vars, vals)
    {
      CommitPoint(x);
      f := model.GetVal();
      if model.evalError || model.numEvalErrors > 0 {
        if doEvalErrorWall {
          f := maxFCN;
        }
        model.ClearEvalErrors();
        numBadNLL := numBadNLL + 1;
      } else if f > maxFCN {
        maxFCN := f;
      }
    }
  
    /** The engine's evaluations of the objective during one operation, at
        the trial points `points` in order (each has one coordinate per
        floating parameter; others are not evaluated). Only floating values
        move, and they end at the cached ones. */
    method EvalPoints(points: seq<seq<real>>)
      requires Ready() && Coherent(model.params, vars, vals)
      modifies this`vals, this`maxFCN, this`numBadNLL
      modifies model`params, model`evalError, model`numEvalErrors
      ensures Ready() && Coherent(model.params, vars, vals)
      ensures model.params == AtCache(old(model.params), vars, vals, 0)
      ensures maxFCN >= old(maxFCN) && old(numBadNLL) <= numBadNLL <= old(numBadNLL) + |points|
      ensures old(model.numEvalErrors) == 0 ==> model.numEvalErrors == 0
      ensures points == [] ==> State() == old(State())
      ensures Lists() == old(Lists()) && model.optimizations == old(model.optimizations)
    {
      ghost var ps0 := model.params;
      DistinctParts(constList, floatList);
      CoherentAtCache(ps0, vars, vals);
      var k := 0;
      while k < |points|
        invariant 0 <= k <= |points|
        invariant Ready() && Coherent(model.params, vars, vals)
        invariant model.params == AtCache(ps0, vars, vals, 0)
        invariant maxFCN >= old(maxFCN) && old(numBadNLL) <= numBadNLL <= old(numBadNLL) + k
        invariant old(model.numEvalErrors) == 0 ==> model.numEvalErrors == 0
        invariant k == 0 ==> State() == old(State())
      {
        if |points[k]| == nDim {
          ghost var vals0 := vals;
          DistinctParts(constList, floatList);
          CommitStaysAtCache(ps0, model.setRule, vars, vals0, points[k]);
          var _ := DoEval(points[k]);
        }
        k := k + 1;
      }
    }

    /** Write an engine result back into the floating parameters, position
        by position over the floating list: the base class's `BackProp`,
        which the driver calls after every engine operation. */
    method BackProp(res: seq<ParamResult>)
      requires Valid()
      modifies model`params
      ensures Valid()
      ensures model.params == BackPropLoop(old(model.params), model.setRule, floatList, res, 0)
      ensures Lists() == old(Lists()) && model.optimizations == old(model.optimizations)
    {
      DistinctParts(constList, floatList);
      BackPropKeepsShape(model.params, model.setRule, floatList, res);
      model.WriteResult(floatList, res);
    }
  }
}
