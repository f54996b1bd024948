/**
 * Specification of the two passes of `RooMinimizerFcnOpt::Synchronize`, as
 * functions that follow its two loops index by index, and the lemmas that
 * say what a whole pass does.
 */
module SyncSpec {
  import opened Params

  /** Every name of `names` denotes a parameter of `ps`. */
  predicate AllIn(names: seq<string>, ps: map<string, Param>)
  {
    forall i :: 0 <= i < |names| ==> names[i] in ps
  }

  /** Every name of `names` denotes a parameter of the concrete real kind. */
  predicate AllRealVar(names: seq<string>, ps: map<string, Param>)
    requires AllIn(names, ps)
  {
    forall i :: 0 <= i < |names| ==> ps[names[i]].isRealVar
  }

  /** No name occurs twice. */
  predicate Distinct(s: seq<string>)
  {
    forall i, j :: 0 <= i < j < |s| ==> s[i] != s[j]
  }

  /** Every parameter is stored under its own name. */
  predicate NamesKeyed(ps: map<string, Param>)
  {
    forall n :: n in ps ==> ps[n].name == n
  }

  /** A list is free of repetitions exactly when no name counts twice in
      its multiset. */
  lemma {:induction false} DistinctCounts(s: seq<string>)
    ensures Distinct(s) <==> forall x :: multiset(s)[x] <= 1
  {
    if s != [] {
      var t := s[1..];
      assert s == [s[0]] + t;
      assert multiset(s) == multiset{s[0]} + multiset(t);
      DistinctCounts(t);
      if Distinct(s) {
        assert Distinct(t) by {
          forall i, j | 0 <= i < j < |t| ensures t[i] != t[j] {
            assert t[i] == s[i + 1] && t[j] == s[j + 1];
          }
        }
        assert s[0] !in t;
        forall x ensures multiset(s)[x] <= 1 {
          if x == s[0] {
            assert multiset(t)[x] == 0;
          }
        }
      } else {
        var i, j :| 0 <= i < j < |s| && s[i] == s[j];
        if i == 0 {
          assert s[0] in t by { assert t[j - 1] == s[j]; }
          assert multiset(s)[s[0]] >= 2;
        } else {
          assert !Distinct(t) by { assert t[i - 1] == t[j - 1]; }
          var x :| multiset(t)[x] > 1;
          assert multiset(s)[x] > 1;
        }
      }
    }
  }

  /** Both halves of a list free of repetitions are free of them. */
  lemma DistinctParts(a: seq<string>, b: seq<string>)
    requires Distinct(a + b)
    ensures Distinct(a) && Distinct(b)
  {
    forall i, j | 0 <= i < j < |b| ensures b[i] != b[j] {
      assert (a + b)[|a| + i] == b[i] && (a + b)[|a| + j] == b[j];
    }
    forall i, j | 0 <= i < j < |a| ensures a[i] != a[j] {
      assert (a + b)[i] == a[i] && (a + b)[j] == a[j];
    }
  }

  /** Rearranging a list keeps it free of repetitions. */
  lemma DistinctPermutation(a: seq<string>, b: seq<string>)
    requires Distinct(a) && multiset(a) == multiset(b)
    ensures Distinct(b)
  {
    DistinctCounts(a);
    DistinctCounts(b);
  }

  function RemoveAt<T>(s: seq<T>, k: nat): (r: seq<T>)
    requires k < |s|
    ensures |r| == |s| - 1
    ensures forall i :: 0 <= i < k ==> r[i] == s[i]
    ensures forall i :: k <= i < |r| ==> r[i] == s[i + 1]
    ensures multiset(r) + multiset{s[k]} == multiset(s)
  {
    assert s == s[..k] + [s[k]] + s[k + 1..];
    s[..k] + s[k + 1..]
  }

  /** Current values of the named parameters, in list order. */
  function Snapshot(ps: map<string, Param>, names: seq<string>): (r: seq<Param>)
    requires AllIn(names, ps)
    ensures |r| == |names|
    ensures forall i :: 0 <= i < |names| ==> r[i] == ps[names[i]]
  {
    seq(|names|, i requires 0 <= i < |names| => ps[names[i]])
  }

  // ---------------------------------------------------------------------
  // First pass: migration from the constant list to the floating list

  /** The lists and flags the migration pass works on. */
  datatype MigState = MigState(
    constList: seq<string>,
    initConst: seq<Param>,
    floatList: seq<string>,
    initFloat: seq<Param>,
    nDim: int,
    statChange: bool,
    valChange: bool)

  /** Whether the loop looks at position `index` at all: both the live
      parameter and its snapshot must be of the concrete real kind. */
  predicate Examined(ps: map<string, Param>, s: MigState, index: nat)
    requires AllIn(s.constList, ps) && index < |s.constList|
  {
    ps[s.constList[index]].isRealVar
    && index < |s.initConst| && s.initConst[index].isRealVar
  }

  /** One iteration of the migration loop at `index`. */
  function MigrateStep(ps: map<string, Param>, s: MigState, index: nat): (r: MigState)
    requires AllIn(s.constList, ps) && index < |s.constList|
    ensures AllIn(r.constList, ps)
    ensures AllIn(s.floatList, ps) ==> AllIn(r.floatList, ps)
  {
    if !Examined(ps, s, index) then s
    else
      var par := ps[s.constList[index]];
      var oldpar := s.initConst[index];
      var moved :=
        if !par.isConst then
          s.(constList := RemoveAt(s.constList, index),
             floatList := s.floatList + [s.constList[index]],
             initFloat := s.initFloat + [oldpar],
             initConst := RemoveAt(s.initConst, index),
             statChange := true,
             nDim := s.nDim + 1)
        else s;
      if par.value != oldpar.value then moved.(valChange := true) else moved
  }

  /** The migration loop from `index` on. The index always advances, also
      after a removal, so the entry shifted into the removed slot is not
      looked at in this pass. */
  function MigrateLoop(ps: map<string, Param>, s: MigState, index: nat): (r: MigState)
    requires AllIn(s.constList, ps)
    ensures AllIn(r.constList, ps)
    ensures AllIn(s.floatList, ps) ==> AllIn(r.floatList, ps)
    decreases |s.constList| - index
  {
    if index >= |s.constList| then s
    else MigrateLoop(ps, MigrateStep(ps, s, index), index + 1)
  }

  /** The floating list of `r` extends that of `s`. */
  ghost predicate Extends(s: MigState, r: MigState)
  {
    && |s.floatList| <= |r.floatList| && r.floatList[..|s.floatList|] == s.floatList
    && |s.initFloat| <= |r.initFloat| && r.initFloat[..|s.initFloat|] == s.initFloat
    && |r.initFloat| - |s.initFloat| == |r.floatList| - |s.floatList|
    && r.nDim == s.nDim + (|r.floatList| - |s.floatList|)
    && (r.statChange <==> (s.statChange || |r.floatList| > |s.floatList|))
  }

  /** What the floating list of `r` gained came out of the constant list of
      `s`, and `r`'s constant list is what stayed behind. */
  ghost predicate Conserves(s: MigState, r: MigState)
    requires |s.floatList| <= |r.floatList|
  {
    multiset(r.constList) + multiset(r.floatList[|s.floatList|..]) == multiset(s.constList)
  }

  /** What the floating list of `r` gained are real-kind parameters that are
      no longer constant. */
  ghost predicate GainsFloating(ps: map<string, Param>, s: MigState, r: MigState)
  {
    forall j :: |s.floatList| <= j < |r.floatList| ==>
      r.floatList[j] in ps && ps[r.floatList[j]].isRealVar && !ps[r.floatList[j]].isConst
  }

  /** `r` arises from `s` by moving entries from the constant list to the
      end of the floating list: the floating list keeps its prefix and grows
      only by parameters of the concrete kind that are no longer constant,
      each taken out of the constant list; the dimension grows by the number
      moved, the snapshots travel along, and the set-change flag is raised
      exactly when something moved. */
  ghost predicate MovedFrom(ps: map<string, Param>, s: MigState, r: MigState)
  {
    Extends(s, r) && Conserves(s, r) && GainsFloating(ps, s, r)
  }

  lemma MovedFromStep(ps: map<string, Param>, s: MigState, index: nat)
    requires AllIn(s.constList, ps) && index < |s.constList|
    ensures MovedFrom(ps, s, MigrateStep(ps, s, index))
  {
    var r := MigrateStep(ps, s, index);
    if r.floatList != s.floatList {
      assert r.floatList == s.floatList + [s.constList[index]];
      assert r.floatList[|s.floatList|..] == [s.constList[index]];
      assert r.initFloat[..|s.initFloat|] == s.initFloat;
    } else {
      assert r.floatList[|s.floatList|..] == [];
      assert r.initFloat == s.initFloat;
    }
  }

  lemma ExtendsTrans(a: MigState, b: MigState, c: MigState)
    requires Extends(a, b) && Extends(b, c)
    ensures Extends(a, c)
  {
    assert c.floatList[..|a.floatList|] == c.floatList[..|b.floatList|][..|a.floatList|];
    assert c.initFloat[..|a.initFloat|] == c.initFloat[..|b.initFloat|][..|a.initFloat|];
  }

  lemma ConservesTrans(a: MigState, b: MigState, c: MigState)
    requires Extends(a, b) && Extends(b, c)
    requires Conserves(a, b) && Conserves(b, c)
    ensures Conserves(a, c)
  {
    var fa, fb, fc := a.floatList, b.floatList, c.floatList;
    assert fc[|fa|..] == fb[|fa|..] + fc[|fb|..] by {
      assert fc == fc[..|fb|] + fc[|fb|..];
    }
  }

  lemma GainsTrans(ps: map<string, Param>, a: MigState, b: MigState, c: MigState)
    requires Extends(a, b) && Extends(b, c)
    requires GainsFloating(ps, a, b) && GainsFloating(ps, b, c)
    ensures GainsFloating(ps, a, c)
  {
    var fa, fb, fc := a.floatList, b.floatList, c.floatList;
    forall j | |fa| <= j < |fc|
      ensures fc[j] in ps && ps[fc[j]].isRealVar && !ps[fc[j]].isConst
    {
      if j < |fb| {
        assert fc[j] == fc[..|fb|][j] == fb[j];
      }
    }
  }

  /** The whole migration pass only moves entries (see MovedFrom). */
  lemma {:induction false} MigratePartition(ps: map<string, Param>, s: MigState, index: nat)
    requires AllIn(s.constList, ps)
    ensures MovedFrom(ps, s, MigrateLoop(ps, s, index))
    decreases |s.constList| - index
  {
    if index < |s.constList| {
      var s1 := MigrateStep(ps, s, index);
      MovedFromStep(ps, s, index);
      MigratePartition(ps, s1, index + 1);
      var r := MigrateLoop(ps, s1, index + 1);
      ExtendsTrans(s, s1, r);
      ConservesTrans(s, s1, r);
      GainsTrans(ps, s, s1, r);
    } else {
      assert s.floatList[|s.floatList|..] == [];
    }
  }

  /** One iteration in full: a position the loop does not examine changes
      nothing; an examined parameter that is no longer constant is removed
      from the constant list and appended to the floating list, its
      snapshot travelling along, with the set flag raised and the dimension
      grown by one; a constant one leaves the lists alone; and an examined
      parameter whose value differs from its snapshot raises the value
      flag, whether or not it moved. */
  lemma MigrateStepEffect(ps: map<string, Param>, s: MigState, index: nat)
    requires AllIn(s.constList, ps) && index < |s.constList|
    ensures var r := MigrateStep(ps, s, index);
      && (!Examined(ps, s, index) ==> r == s)
      && (Examined(ps, s, index) && !ps[s.constList[index]].isConst ==>
            && r.constList == RemoveAt(s.constList, index)
            && r.floatList == s.floatList + [s.constList[index]]
            && r.initConst == RemoveAt(s.initConst, index)
            && r.initFloat == s.initFloat + [s.initConst[index]]
            && r.nDim == s.nDim + 1 && r.statChange)
      && (Examined(ps, s, index) && ps[s.constList[index]].isConst ==>
            r == s.(valChange := r.valChange))
      && (Examined(ps, s, index) ==>
            (r.valChange <==> s.valChange || ps[s.constList[index]].value != s.initConst[index].value))
  {
  }

  /** Once raised, neither flag is lowered again by the rest of the pass. */
  lemma {:induction false} MigrateFlagsStay(ps: map<string, Param>, s: MigState, index: nat)
    requires AllIn(s.constList, ps)
    ensures var r := MigrateLoop(ps, s, index);
      (s.statChange ==> r.statChange) && (s.valChange ==> r.valChange)
    decreases |s.constList| - index
  {
    if index < |s.constList| {
      MigrateFlagsStay(ps, MigrateStep(ps, s, index), index + 1);
    }
  }

  /** As long as nothing has moved the positions line up with the original
      list, so the first examined parameter that is no longer constant
      migrates: it becomes the first new floating entry, with its snapshot.
      And an examined parameter reached before any move whose value differs
      from its snapshot raises the value flag. */
  lemma {:induction false} MigrateFirstExamined(ps: map<string, Param>, s: MigState, index: nat, k: nat)
    requires AllIn(s.constList, ps) && index <= k < |s.constList|
    requires forall j :: index <= j < k && Examined(ps, s, j) ==> ps[s.constList[j]].isConst
    requires Examined(ps, s, k)
    ensures var r := MigrateLoop(ps, s, index);
      && (!ps[s.constList[k]].isConst ==>
            && |s.floatList| < |r.floatList| && r.floatList[|s.floatList|] == s.constList[k]
            && |s.initFloat| < |r.initFloat| && r.initFloat[|s.initFloat|] == s.initConst[k])
      && (ps[s.constList[k]].value != s.initConst[k].value ==> r.valChange)
    decreases k - index
  {
    if index < k {
      var s1 := MigrateStep(ps, s, index);
      MigrateStepEffect(ps, s, index);
      assert s1 == s.(valChange := s1.valChange);
      forall j | index + 1 <= j < k && Examined(ps, s1, j)
        ensures ps[s1.constList[j]].isConst
      {
        assert Examined(ps, s, j);
      }
      MigrateFirstExamined(ps, s1, index + 1, k);
    } else {
      MigrateFirstAt(ps, s, k);
    }
  }

  /** `MigrateFirstExamined` when the pass starts at position `k` itself. */
  lemma MigrateFirstAt(ps: map<string, Param>, s: MigState, k: nat)
    requires AllIn(s.constList, ps) && k < |s.constList| && Examined(ps, s, k)
    ensures var r := MigrateLoop(ps, s, k);
      && (!ps[s.constList[k]].isConst ==>
            && |s.floatList| < |r.floatList| && r.floatList[|s.floatList|] == s.constList[k]
            && |s.initFloat| < |r.initFloat| && r.initFloat[|s.initFloat|] == s.initConst[k])
      && (ps[s.constList[k]].value != s.initConst[k].value ==> r.valChange)
  {
    var s1 := MigrateStep(ps, s, k);
    var r := MigrateLoop(ps, s1, k + 1);
    MigrateStepEffect(ps, s, k);
    MigratePartition(ps, s1, k + 1);
    MigrateFlagsStay(ps, s1, k + 1);
    if !ps[s.constList[k]].isConst {
      assert r.floatList[..|s1.floatList|] == s1.floatList;
      assert r.floatList[|s.floatList|] == r.floatList[..|s1.floatList|][|s.floatList|];
      assert r.initFloat[|s.initFloat|] == r.initFloat[..|s1.initFloat|][|s.initFloat|];
    }
  }

  /** The pass moves nothing exactly when every parameter it examines is
      still constant. */
  lemma {:induction false} MigrateMovesNothing(ps: map<string, Param>, s: MigState, index: nat)
    requires AllIn(s.constList, ps)
    ensures (|MigrateLoop(ps, s, index).floatList| == |s.floatList|) <==>
      (forall k :: index <= k < |s.constList| && Examined(ps, s, k) ==> ps[s.constList[k]].isConst)
    decreases |s.constList| - index
  {
    if index < |s.constList| {
      var s1 := MigrateStep(ps, s, index);
      MigrateStepEffect(ps, s, index);
      MigratePartition(ps, s1, index + 1);
      if Examined(ps, s, index) && !ps[s.constList[index]].isConst {
        assert |MigrateLoop(ps, s1, index + 1).floatList| > |s.floatList|;
      } else {
        assert s1 == s.(valChange := s1.valChange);
        MigrateMovesNothing(ps, s1, index + 1);
        forall k | index + 1 <= k < |s.constList|
          ensures Examined(ps, s1, k) == Examined(ps, s, k)
        {
        }
      }
    }
  }

  /** Moving some entries of a constant list to the end of a floating list
      keeps the two together free of repetitions, and a moved entry is no
      longer on the constant list. */
  lemma DistinctAfterMove(c0: seq<string>, f0: seq<string>, c1: seq<string>, gained: seq<string>)
    requires Distinct(c0 + f0) && multiset(c1) + multiset(gained) == multiset(c0)
    ensures Distinct(c1 + (f0 + gained))
    ensures forall j :: 0 <= j < |gained| ==> gained[j] !in c1
  {
    var c := c1 + (f0 + gained);
    assert multiset(c) == multiset(c1) + multiset(f0) + multiset(gained);
    assert multiset(c0 + f0) == multiset(c0) + multiset(f0);
    DistinctPermutation(c0 + f0, c);
    forall j | 0 <= j < |gained|
      ensures gained[j] !in c1
    {
      forall i | 0 <= i < |c1|
        ensures c1[i] != gained[j]
      {
        assert c[i] == c1[i] && c[|c1| + |f0| + j] == gained[j];
      }
    }
  }

  /** The whole pass keeps the two lists together free of repetitions, and
      a parameter it moves no longer appears on the constant list. */
  lemma MigrateKeepsDistinct(ps: map<string, Param>, s: MigState)
    requires AllIn(s.constList, ps) && Distinct(s.constList + s.floatList)
    ensures var r := MigrateLoop(ps, s, 0);
      && Distinct(r.constList + r.floatList)
      && forall j :: |s.floatList| <= j < |r.floatList| ==> r.floatList[j] !in r.constList
  {
    var r := MigrateLoop(ps, s, 0);
    MigratePartition(ps, s, 0);
    DistinctAfterExtension(s.constList, s.floatList, r.constList, r.floatList);
  }

  /** `DistinctAfterMove` for a floating list `f1` that extends `f0`. */
  lemma DistinctAfterExtension(c0: seq<string>, f0: seq<string>, c1: seq<string>, f1: seq<string>)
    requires Distinct(c0 + f0) && |f0| <= |f1| && f1[..|f0|] == f0
    requires multiset(c1) + multiset(f1[|f0|..]) == multiset(c0)
    ensures Distinct(c1 + f1)
    ensures forall j :: |f0| <= j < |f1| ==> f1[j] !in c1
  {
    var gained := f1[|f0|..];
    assert f1 == f0 + gained;
    DistinctAfterMove(c0, f0, c1, gained);
    forall j | |f0| <= j < |f1|
      ensures f1[j] !in c1
    {
      assert f1[j] == gained[j - |f0|];
    }
  }

  /** When every constant-list parameter is still constant nothing moves,
      and the value-change flag is raised exactly when some examined
      parameter's value differs from its snapshot. */
  lemma {:induction false} MigrateNoneFloating(ps: map<string, Param>, s: MigState, index: nat)
    requires AllIn(s.constList, ps)
    requires forall i :: 0 <= i < |s.constList| ==> ps[s.constList[i]].isConst
    ensures var r := MigrateLoop(ps, s, index);
      && r.constList == s.constList && r.floatList == s.floatList
      && r.initConst == s.initConst && r.initFloat == s.initFloat
      && r.nDim == s.nDim && r.statChange == s.statChange
      && (r.valChange <==>
            (s.valChange ||
             exists i :: index <= i < |s.constList| && Examined(ps, s, i)
                         && ps[s.constList[i]].value != s.initConst[i].value))
    decreases |s.constList| - index
  {
    if index < |s.constList| {
      var s1 := MigrateStep(ps, s, index);
      assert s1 == s.(valChange := s1.valChange);
      MigrateNoneFloating(ps, s1, index + 1);
    }
  }

  /** Two consecutive parameters that both stopped being constant: only the
      first migrates in this pass, the second shifts into its slot and is
      skipped. */
  lemma MigrationSkipsShiftedEntry(a: Param, b: Param)
    requires a.name != b.name
    requires a.isRealVar && b.isRealVar && !a.isConst && !b.isConst
    ensures var ps := map[a.name := a, b.name := b];
      var r := MigrateLoop(ps, MigState([a.name, b.name], [a, b], [], [], 0, false, false), 0);
      r.constList == [b.name] && r.floatList == [a.name] && r.nDim == 1 && r.statChange
  {
    var ps := map[a.name := a, b.name := b];
    var s0 := MigState([a.name, b.name], [a, b], [], [], 0, false, false);
    var s1 := MigrateStep(ps, s0, 0);
    assert s1.constList == [b.name] && s1.floatList == [a.name];
    assert MigrateLoop(ps, s1, 1) == s1;
  }

  // ---------------------------------------------------------------------
  // Second pass: the floating list against the engine's settings vector

  /** The settings vector and the two change flags of the second pass. */
  datatype RecState = RecState(settings: seq<ParamSetting>, statChange: bool, valChange: bool)

  /** Settings entry appended for a floating-list position the engine has
      no entry for yet. */
  function NewEntry(p: Param): (e: ParamSetting)
    ensures e.name == p.name && e.value == p.value && !e.fixed
  {
    if p.hasMin && p.hasMax then
      Bounded(p.name, p.value, StepOf(p), LowerOf(p), UpperOf(p))
    else if p.hasMin then
      Unbounded(p.name, p.value, StepOf(p)).WithLowerLimit(LowerOf(p))
    else if p.hasMax then
      Unbounded(p.name, p.value, StepOf(p)).WithUpperLimit(UpperOf(p))
    else
      Unbounded(p.name, p.value, StepOf(p))
  }

  /** An existing entry whose fixed flag disagrees with the parameter's
      constness (it gets fixed or released). */
  predicate FixFlips(p: Param, e: ParamSetting)
  {
    p.isConst != e.fixed
  }

  /** A constant parameter whose already fixed entry holds another value. */
  predicate FixedValueMoves(p: Param, e: ParamSetting)
  {
    p.isConst && e.fixed && e.value != p.value
  }

  /** Any difference between a floating parameter and its entry. */
  predicate FloatDiffers(p: Param, e: ParamSetting)
  {
    e.value != p.value || e.lower != LowerOf(p) || e.upper != UpperOf(p) || e.step != StepOf(p)
  }

  /** Deltas applied to an existing entry, with the set-change and
      value-change flags they raise. */
  function UpdateEntry(p: Param, e: ParamSetting): (r: (ParamSetting, bool, bool))
    ensures r.0.name == e.name && r.0.value == p.value && r.0.fixed == p.isConst
  {
    if p.isConst && !e.fixed then
      var e1 := if e.value != p.value then e.(value := p.value) else e;
      (e1.(fixed := true), true, false)
    else if p.isConst && e.fixed then
      if e.value != p.value then (e.(value := p.value), false, true) else (e, false, false)
    else
      var released := if e.fixed then e.(fixed := false) else e;
      var e2 :=
        if FloatDiffers(p, e) then
          var e3 := released.(value := p.value, step := StepOf(p));
          if p.hasMin && p.hasMax then e3.WithLimits(LowerOf(p), UpperOf(p))
          else if p.hasMin then e3.WithLowerLimit(LowerOf(p))
          else if p.hasMax then e3.WithUpperLimit(UpperOf(p))
          else e3
        else released;
      (e2, e.fixed, false)
  }

  /** The appended entry carries the parameter's name, value and step, is
      free, and has a limit exactly on the sides the parameter is bounded. */
  lemma NewEntryShape(p: Param)
    ensures var e := NewEntry(p);
      && e.name == p.name && e.value == p.value && e.step == StepOf(p) && !e.fixed
      && (e.hasLower <==> p.hasMin) && (e.hasUpper <==> p.hasMax)
      && e.lower == (if p.hasMin then LowerOf(p) else 0.0)
      && e.upper == (if p.hasMax then UpperOf(p) else 0.0)
  {
  }

  /** After the update the entry holds the parameter's value and is fixed
      exactly when the parameter is constant; a floating parameter's entry
      holds its step, and its limits wherever it has a bound. The
      set-change flag is raised exactly on a fix or release, the
      value-change flag exactly on a moved fixed value. */
  lemma UpdateEntryAgrees(p: Param, e: ParamSetting)
    ensures var (e', sc, vc) := UpdateEntry(p, e);
      && e'.name == e.name && e'.value == p.value && e'.fixed == p.isConst
      && (!p.isConst ==> e'.step == StepOf(p))
      && (!p.isConst && p.hasMin && p.hasMax ==>
            e'.lower == p.min && e'.upper == p.max && (FloatDiffers(p, e) ==> e'.hasLower && e'.hasUpper))
      && (!p.isConst && p.hasMin && !p.hasMax && FloatDiffers(p, e) ==>
            e'.hasLower && !e'.hasUpper && e'.lower == p.min)
      && (!p.isConst && !p.hasMin && p.hasMax && FloatDiffers(p, e) ==>
            !e'.hasLower && e'.hasUpper && e'.upper == p.max)
      && (p.isConst ==> e'.(value := e.value, fixed := e.fixed) == e)
      && (!p.isConst && !FloatDiffers(p, e) ==> e' == e.(fixed := false))
      && (sc <==> FixFlips(p, e)) && (vc <==> FixedValueMoves(p, e))
  {
  }

  /** A floating parameter with no bounds leaves whatever limits its entry
      had: the update never removes limits. */
  lemma UnboundedKeepsOldLimits(p: Param, e: ParamSetting)
    requires !p.isConst && !p.hasMin && !p.hasMax
    ensures var e' := UpdateEntry(p, e).0;
      e'.hasLower == e.hasLower && e'.lower == e.lower
      && e'.hasUpper == e.hasUpper && e'.upper == e.upper
  {
  }

  /** One iteration of the reconciliation loop at `index`: entries that are
      not of the concrete real kind are skipped without touching the
      settings; a position past the end appends one entry; an existing
      position gets its deltas. */
  function ReconcileStep(ps: map<string, Param>, f: seq<string>, st: RecState, index: nat): (r: RecState)
    requires AllIn(f, ps) && index < |f|
    ensures |st.settings| <= |r.settings| <= |st.settings| + 1
    ensures (st.statChange ==> r.statChange) && (st.valChange ==> r.valChange)
  {
    var p := ps[f[index]];
    if !p.isRealVar then st
    else if index >= |st.settings| then st.(settings := st.settings + [NewEntry(p)])
    else
      var (e, sc, vc) := UpdateEntry(p, st.settings[index]);
      RecState(st.settings[index := e], st.statChange || sc, st.valChange || vc)
  }

  /** The reconciliation loop from `index` on. */
  function ReconcileLoop(ps: map<string, Param>, f: seq<string>, st: RecState, index: nat): (r: RecState)
    requires AllIn(f, ps)
    ensures |st.settings| <= |r.settings|
    ensures (st.statChange ==> r.statChange) && (st.valChange ==> r.valChange)
    decreases |f| - index
  {
    if index >= |f| then st
    else ReconcileLoop(ps, f, ReconcileStep(ps, f, st, index), index + 1)
  }

  /** With every floating entry of the concrete kind, the pass lines the
      settings vector up with the floating list: positions the engine knew
      get their deltas, missing ones are appended, later ones are left
      alone, and each flag is raised exactly when some position flips its
      fixed state or moves a fixed value. */
  lemma ReconcileAligned(ps: map<string, Param>, f: seq<string>, st: RecState, index: nat)
    requires AllIn(f, ps) && AllRealVar(f, ps)
    requires index <= |st.settings|
    ensures var r := ReconcileLoop(ps, f, st, index);
      && |r.settings| == (if index < |f| && |st.settings| < |f| then |f| else |st.settings|)
      && (forall j :: 0 <= j < |r.settings| && !(index <= j < |f|) ==> r.settings[j] == st.settings[j])
      && (forall j :: index <= j < |f| && j < |st.settings| ==>
            r.settings[j] == UpdateEntry(ps[f[j]], st.settings[j]).0)
      && (forall j :: index <= j < |f| && |st.settings| <= j ==> r.settings[j] == NewEntry(ps[f[j]]))
      && (r.statChange <==>
            (st.statChange ||
             exists j :: index <= j < |f| && j < |st.settings| && FixFlips(ps[f[j]], st.settings[j])))
      && (r.valChange <==>
            (st.valChange ||
             exists j :: index <= j < |f| && j < |st.settings| && FixedValueMoves(ps[f[j]], st.settings[j])))
  {
    ReconcileEntries(ps, f, st, index);
    ReconcileFlags(ps, f, st, index);
  }

  /** The settings half of `ReconcileAligned`. */
  lemma {:induction false} ReconcileEntries(ps: map<string, Param>, f: seq<string>, st: RecState, index: nat)
    requires AllIn(f, ps) && AllRealVar(f, ps)
    requires index <= |st.settings|
    ensures var r := ReconcileLoop(ps, f, st, index);
      && |r.settings| == (if index < |f| && |st.settings| < |f| then |f| else |st.settings|)
      && (forall j :: 0 <= j < |r.settings| && !(index <= j < |f|) ==> r.settings[j] == st.settings[j])
      && (forall j :: index <= j < |f| && j < |st.settings| ==>
            r.settings[j] == UpdateEntry(ps[f[j]], st.settings[j]).0)
      && (forall j :: index <= j < |f| && |st.settings| <= j ==> r.settings[j] == NewEntry(ps[f[j]]))
    decreases |f| - index
  {
    if index < |f| {
      ReconcileEntries(ps, f, ReconcileStep(ps, f, st, index), index + 1);
    }
  }

  /** The flags half of `ReconcileAligned`. */
  lemma {:induction false} ReconcileFlags(ps: map<string, Param>, f: seq<string>, st: RecState, index: nat)
    requires AllIn(f, ps) && AllRealVar(f, ps)
    requires index <= |st.settings|
    ensures var r := ReconcileLoop(ps, f, st, index);
      && (r.statChange <==>
            (st.statChange ||
             exists j :: index <= j < |f| && j < |st.settings| && FixFlips(ps[f[j]], st.settings[j])))
      && (r.valChange <==>
            (st.valChange ||
             exists j :: index <= j < |f| && j < |st.settings| && FixedValueMoves(ps[f[j]], st.settings[j])))
    decreases |f| - index
  {
    if index < |f| {
      var s1 := ReconcileStep(ps, f, st, index);
      ReconcileFlags(ps, f, s1, index + 1);
      if index < |st.settings| {
        UpdateEntryAgrees(ps[f[index]], st.settings[index]);
      }
    }
  }

  /** Consequence for the engine: after a full pass every floating-list
      position holds its parameter's current value, and every position the
      engine already had is fixed exactly when its parameter is constant. */
  lemma SettingsTrackParameters(ps: map<string, Param>, f: seq<string>, st: RecState)
    requires AllIn(f, ps) && AllRealVar(f, ps)
    ensures var r := ReconcileLoop(ps, f, st, 0);
      && |r.settings| >= |f|
      && (forall j :: 0 <= j < |f| ==> r.settings[j].value == ps[f[j]].value)
      && (forall j :: 0 <= j < |f| && j < |st.settings| ==> r.settings[j].fixed == ps[f[j]].isConst)
  {
    ReconcileAligned(ps, f, st, 0);
    var r := ReconcileLoop(ps, f, st, 0);
    forall j | 0 <= j < |f|
      ensures r.settings[j].value == ps[f[j]].value
      ensures j < |st.settings| ==> r.settings[j].fixed == ps[f[j]].isConst
    {
      if j < |st.settings| {
        UpdateEntryAgrees(ps[f[j]], st.settings[j]);
      } else {
        NewEntryShape(ps[f[j]]);
      }
    }
  }

  /** Both passes: the migration pass from `s0`, then the settings pass
      over `settings0` along the resulting floating list, starting from the
      migration pass's flags. */
  function SyncPass(ps: map<string, Param>, s0: MigState, settings0: seq<ParamSetting>): (r: (MigState, RecState))
    requires AllIn(s0.constList, ps) && AllIn(s0.floatList, ps)
  {
    var m := MigrateLoop(ps, s0, 0);
    (m, ReconcileLoop(ps, m.floatList, RecState(settings0, m.statChange, m.valChange), 0))
  }

  // ---------------------------------------------------------------------
  // Notification of the objective's constant-term optimizer

  datatype OptChange = ConfigChange | ValueChange

  /** Notifications sent at the end of a pass: with constant optimization
      on, a change of the constant set asks for a full re-optimization, a
      change of constant values alone for a value-only one. */
  function Notification(optConst: bool, statChange: bool, valChange: bool): (r: seq<OptChange>)
    ensures |r| <= 1
    ensures r == [ConfigChange] <==> optConst && statChange
    ensures r == [ValueChange] <==> optConst && !statChange && valChange
    ensures r == [] <==> !optConst || (!statChange && !valChange)
  {
    if !optConst then []
    else if statChange then [ConfigChange]
    else if valChange then [ValueChange]
    else []
  }

  /** What a synchronization leaves behind: the objective's lists, snapshots
      and dimension (flags lowered), the engine's settings, and the
      notifications the optimizer has received. */
  datatype SyncView = SyncView(lists: MigState, settings: seq<ParamSetting>, notices: seq<OptChange>)

  /** The state both passes and the notification make of lists `s0`,
      settings `settings0` and notifications `opt0`; the constant list is
      snapshot afresh at the end. */
  function SyncOutcome(ps: map<string, Param>, s0: MigState, settings0: seq<ParamSetting>,
                       opt0: seq<OptChange>, optConst: bool): (v: SyncView)
    requires AllIn(s0.constList, ps) && AllIn(s0.floatList, ps)
  {
    var (m, r) := SyncPass(ps, s0, settings0);
    SyncView(MigState(m.constList, Snapshot(ps, m.constList), m.floatList, m.initFloat, m.nDim, false, false),
             r.settings, opt0 + Notification(optConst, r.statChange, r.valChange))
  }
}
