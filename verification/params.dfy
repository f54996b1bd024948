/**
 * Named model parameters and the minimizer engine's positional parameter
 * settings, plus the pure rules the synchronizer uses to derive a settings
 * entry (step size and limits) from a parameter.
 */
module Params {

  /** A named model parameter as the synchronizer sees it. `isRealVar` is
      false for parameters that are not of the concrete real-valued kind
      (the ones a `dynamic_cast<RooRealVar*>` rejects). */
  datatype Param = Param(
    name: string,
    isRealVar: bool,
    value: real,
    hasMin: bool, min: real,
    hasMax: bool, max: real,
    error: real,
    isConst: bool)

  /** One entry of the engine's settings vector. A missing limit reads as 0,
      as the engine's LowerLimit()/UpperLimit() accessors do. */
  datatype ParamSetting = ParamSetting(
    name: string,
    value: real,
    step: real,
    fixed: bool,
    hasLower: bool, lower: real,
    hasUpper: bool, upper: real)
  {
    /** Both limits set. */
    function WithLimits(lo: real, hi: real): (e: ParamSetting)
      ensures e.hasLower && e.hasUpper && e.lower == lo && e.upper == hi
      ensures e.(hasLower := hasLower, lower := lower, hasUpper := hasUpper, upper := upper) == this
    {
      this.(hasLower := true, lower := lo, hasUpper := true, upper := hi)
    }

    /** Lower limit only; the upper limit is dropped. */
    function WithLowerLimit(lo: real): (e: ParamSetting)
      ensures e.hasLower && !e.hasUpper && e.lower == lo && e.upper == 0.0
      ensures e.(hasLower := hasLower, lower := lower, hasUpper := hasUpper, upper := upper) == this
    {
      this.(hasLower := true, lower := lo, hasUpper := false, upper := 0.0)
    }

    /** Upper limit only; the lower limit is dropped. */
    function WithUpperLimit(hi: real): (e: ParamSetting)
      ensures !e.hasLower && e.hasUpper && e.lower == 0.0 && e.upper == hi
      ensures e.(hasLower := hasLower, lower := lower, hasUpper := hasUpper, upper := upper) == this
    {
      this.(hasLower := false, lower := 0.0, hasUpper := true, upper := hi)
    }
  }

  /** A free entry without limits. */
  function Unbounded(name: string, value: real, step: real): (s: ParamSetting)
  {
    ParamSetting(name, value, step, false, false, 0.0, false, 0.0)
  }

  /** A free entry with both limits. */
  function Bounded(name: string, value: real, step: real, lo: real, hi: real): (s: ParamSetting)
  {
    Unbounded(name, value, step).WithLimits(lo, hi)
  }

  /** Step used for a floating parameter that has no positive error
      estimate: a tenth of the range when both bounds exist, trimmed to
      half the distance to the upper bound (checked first) or else to the
      lower bound when the value lies within two steps of it, and restored
      to a tenth of the range if trimming gives exactly zero; 1 otherwise. */
  function DefaultStep(p: Param): (step: real)
    ensures (p.hasMin && p.hasMax ==> p.min != p.max) ==> step != 0.0
  {
    if p.hasMin && p.hasMax then
      var tenth := 0.1 * (p.max - p.min);
      var trimmed :=
        if p.max - p.value < 2.0 * tenth then (p.max - p.value) / 2.0
        else if p.value - p.min < 2.0 * tenth then (p.value - p.min) / 2.0
        else tenth;
      if trimmed == 0.0 then tenth else trimmed
    else
      1.0
  }

  /** Step the synchronizer offers the engine: 0 for a constant parameter,
      the error estimate when it is positive, the default step otherwise. */
  function StepOf(p: Param): (step: real)
    ensures p.isConst ==> step == 0.0
    ensures !p.isConst && (p.hasMin && p.hasMax ==> p.min != p.max) ==> step != 0.0
  {
    if p.isConst then 0.0
    else if p.error <= 0.0 then DefaultStep(p)
    else p.error
  }

  /** Lower limit the synchronizer compares against: the value itself for a
      constant parameter, the minimum when there is one, 0 otherwise. */
  function LowerOf(p: Param): (lo: real)
  {
    if p.isConst then p.value else if p.hasMin then p.min else 0.0
  }

  /** Upper limit, as LowerOf. */
  function UpperOf(p: Param): (hi: real)
  {
    if p.isConst then p.value else if p.hasMax then p.max else 0.0
  }

  /** Without both bounds the default step is 1. */
  lemma DefaultStepUnbounded(p: Param)
    requires !(p.hasMin && p.hasMax)
    ensures DefaultStep(p) == 1.0
  {
  }

  /** For a value inside a proper range, the default step is positive and
      at most a tenth of the range. */
  lemma DefaultStepInRange(p: Param)
    requires p.hasMin && p.hasMax && p.min < p.max
    requires p.min <= p.value <= p.max
    ensures 0.0 < DefaultStep(p) <= 0.1 * (p.max - p.min)
  {
  }

  /** Two default steps either way stay inside the bounds, unless the value
      sits exactly on a bound (where the zero trim is undone). */
  lemma DefaultStepWindow(p: Param)
    requires p.hasMin && p.hasMax && p.min < p.max
    requires p.min <= p.value <= p.max
    ensures var s := DefaultStep(p);
      (p.min <= p.value - 2.0 * s && p.value + 2.0 * s <= p.max)
      || p.value == p.min || p.value == p.max
  {
  }

  /** With min < max the upper and lower trims never both apply, whatever
      the value, so checking the upper bound first matters only for an
      inverted range, min > max. */
  lemma AtMostOneTrim(p: Param)
    requires p.hasMin && p.hasMax && p.min < p.max
    ensures !(p.max - p.value < 2.0 * (0.1 * (p.max - p.min))
              && p.value - p.min < 2.0 * (0.1 * (p.max - p.min)))
  {
  }

  /** Bounds [0,10]: a tenth of the range at 5, trimmed to 0.25 at 9.5,
      restored to 1 on the upper bound itself. Inverted bounds min = 10,
      max = 0 at 3: both trims apply and the upper one wins, -1.5 (the lower
      one would give -3.5). */
  lemma DefaultStepExamples(name: string)
    ensures DefaultStep(Param(name, true, 5.0, true, 0.0, true, 10.0, 0.0, false)) == 1.0
    ensures DefaultStep(Param(name, true, 9.5, true, 0.0, true, 10.0, 0.0, false)) == 0.25
    ensures DefaultStep(Param(name, true, 10.0, true, 0.0, true, 10.0, 0.0, false)) == 1.0
    ensures DefaultStep(Param(name, true, 0.5, true, 0.0, true, 10.0, 0.0, false)) == 0.25
    ensures DefaultStep(Param(name, true, 3.0, true, 10.0, true, 0.0, 0.0, false)) == -1.5
  {
  }
}
