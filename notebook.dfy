/**
 * The notebook-style script of the aging network: module-level constants
 * in place of the configuration records (exercise starts at 40), the
 * intervention chosen by comparing the mode name inside the loop body,
 * the step written out inline with a per-subsystem shock loop, and the
 * largest death age over a set of scenario results.
 */
module Notebook {
  import opened Wrappers
  import opened Vectors
  import opened Config
  import opened Model
  import opened Interventions
  import opened Simulation

  /** The time grid and thresholds of the script. */
  function NotebookSimulation(): SimulationConfig {
    SimulationConfig(startAge := 30.0, years := 90.0, dt := 0.1, funcThreshold := 0.60,
                     deathThreshold := 0.25, noiseStd := 0.005)
  }

  /** The initial state and baseline parameters of the script. */
  function NotebookSystem(): SystemConfig {
    SystemConfig(
      x0 := [0.9, 0.9, 0.9],
      d0 := [0.1, 0.1, 0.1],
      baseDecay := [0.020, 0.020, 0.020],
      betaDecay := [1.5, 1.5, 1.5],
      baseRecovery := [0.30, 0.25, 0.20],
      gammaRecovery := [1.0, 1.0, 1.0],
      kCeiling := [0.6, 0.6, 0.6],
      cBase := [[0.0, 0.10, 0.10], [0.10, 0.0, 0.10], [0.10, 0.10, 0.0]],
      gammaCoupling := 1.0,
      shockProbBase := [0.018, 0.018, 0.018],
      shockMeanBase := [0.04, 0.04, 0.04],
      shockStdBase := [0.015, 0.015, 0.015],
      alphaDamageFromLowXBase := 0.03,
      betaDamageFromShock := 0.4)
  }

  /** The intervention parameters of the script. */
  function NotebookInterventions(): InterventionConfig {
    InterventionConfig(
      exerciseStartAge := 40.0,
      exerciseRecoveryGain := 0.3,
      exerciseDamageReduction := 0.3,
      drugStartAge := 60.0,
      drugShockFactor := 0.4,
      organReplacementAge := 65.0,
      organScenarios := map["organ1" := [0], "organ2" := [0, 1], "organ3" := [0, 1, 2]],
      organReplacementD := [0.15, 0.15, 0.25],
      organReplacementX := [0.90, 0.90, 0.85],
      parabiosisStartAge := 55.0,
      parabiosisDuration := 8.0,
      parabiosisStrengthK := 0.6,
      parabiosisRecoveryGain := 0.40,
      parabiosisDecayReduction := 0.20,
      parabiosisAlphaReduction := 0.40,
      parabiosisShockDamageReduction := 0.30)
  }

  /** `timesteps = int(years / dt)`. */
  function NotebookTimesteps(): int {
    Trunc(NotebookSimulation().years / NotebookSimulation().dt)
  }

  /**
   * The script's constants are the package defaults, except that exercise
   * starts at 40 instead of 45; its time grid has 900 steps.
   */
  lemma NotebookConstantsAgree()
    ensures NotebookSimulation() == DefaultSimulationConfig()
    ensures NotebookSystem() == DefaultSystemConfig()
    ensures NotebookInterventions() == DefaultInterventionConfig().(exerciseStartAge := 40.0)
    ensures NotebookTimesteps() == 900
  {
    var w := map["organ1" := [0], "organ2" := [0, 1], "organ3" := [0, 1, 2]];
    var m := DefaultOrganScenarios();
    assert w.Keys == m.Keys;
    assert w["organ1"] == m["organ1"] && w["organ2"] == m["organ2"] && w["organ3"] == m["organ3"];
    assert w == m;
    assert Timesteps(NotebookSimulation()) == Ok(900);
  }

  /** `s.startswith(prefix)`. */
  predicate StartsWith(s: string, prefix: string) {
    |prefix| <= |s| && s[..|prefix|] == prefix
  }

  /**
   * The intervention a mode name selects in the loop body: the three
   * names compared for equality, an organ replacement for any name
   * starting with "organ", and no intervention for every other name.
   */
  function NotebookKind(mode: string): Intervention {
    if mode == "exercise" then Exercise
    else if mode == "parabiosis" then Parabiosis
    else if mode == "drug" then Drug
    else if StartsWith(mode, "organ") then OrganReplacement(mode)
    else NoIntervention
  }

  /**
   * On the seven registered names the script selects the registered
   * handler. Any other name runs the baseline, unless it starts with
   * "organ": then it is an organ replacement whose scenario is missing.
   */
  lemma NotebookKindMatchesRegistry(mode: string)
    ensures mode in Registry ==> NotebookKind(mode) == Registry[mode]
    ensures mode !in Registry ==>
      NotebookKind(mode) == (if StartsWith(mode, "organ") then OrganReplacement(mode) else NoIntervention)
    ensures NotebookKind(mode).OrganReplacement? <==> StartsWith(mode, "organ")
    ensures StartsWith(mode, "organ") ==> NotebookKind(mode) == OrganReplacement(mode)
    ensures NotebookKind(mode).OrganReplacement? ==>
      (NotebookKind(mode).scenario in NotebookInterventions().organScenarios <==> mode in Registry)
  {
    assert !StartsWith("none", "organ");
    NotOrganPrefix("exercise");
    NotOrganPrefix("drug");
    NotOrganPrefix("parabiosis");
    assert StartsWith("organ1", "organ") && StartsWith("organ2", "organ") && StartsWith("organ3", "organ");
  }

  lemma NotOrganPrefix(s: string)
    requires 0 < |s| && s[0] != 'o'
    ensures !StartsWith(s, "organ")
  {
    if 5 <= |s| {
      assert s[..5][0] == s[0];
    }
  }

  /** A run of the script for a mode name and its draws. */
  function NotebookEnv(mode: string, draws: nat -> StepDraws, expNeg: real -> real): Env {
    Env(NotebookKind(mode), NotebookSimulation(), NotebookSystem(), NotebookInterventions(), draws, expNeg)
  }

  /**
   * The per-subsystem shock loop: a hit when the uniform draw is below the
   * probability, its normal magnitude floored at zero written into the
   * zeroed shock array.
   */
  method SampleShocks(prob: Vec, mean: Vec, std: Vec, dr: StepDraws) returns (local: Vec)
    ensures local == LocalShock(prob, mean, std, dr)
  {
    var a := new real[N](i => 0.0);
    for i := 0 to N
      invariant forall k :: 0 <= k < i ==> a[k] == LocalShock(prob, mean, std, dr)[k]
      invariant forall k :: i <= k < N ==> a[k] == 0.0
    {
      if dr.uniform[i] < prob[i] {
        var mag := Normal(mean[i], std[i], dr.shockNormal[i]);
        mag := Max(mag, 0.0);
        a[i] := mag;
      }
    }
    local := a[..];
  }

  /** The adjustment a mode's handler gives at an age, setting aside the organ reset. */
  function Modifiers(mode: string, age: real, expNeg: real -> real): StepAdjustment {
    var r := Handler(NotebookKind(mode), age, NotebookSystem(), NotebookInterventions(), InterventionContext(true),
                     expNeg);
    if r.Ok? then r.value else DefaultAdjustment()
  }

  lemma ScaleByOne(v: Vec)
    ensures Scale(v, 1.0) == v
  {
    assert forall i: Node :: Scale(v, 1.0)[i] == v[i];
  }

  /**
   * The intervention block of the loop body: the decay and recovery rates,
   * the low-function damage coefficient, the shock damage scale and the
   * shock probability and mean, as the exercise, parabiosis and drug
   * branches set them; each is what the package step derives from the
   * handler's adjustment.
   */
  method NotebookModifiers(mode: string, age: real, d: Vec, expNeg: real -> real)
      returns (dec: Vec, rec: Vec, alpha: real, shockDamageScale: real, prob: Vec, mean: Vec)
    ensures var sys := NotebookSystem(); var adj := Modifiers(mode, age, expNeg);
      dec == Scale(EffectiveDecay(d, sys), adj.decayScale) &&
      rec == Scale(EffectiveRecovery(d, sys), adj.recoveryScale) &&
      alpha == AlphaDamage(sys, adj) && shockDamageScale == adj.shockDamageScale &&
      prob == adj.shockProb.GetOr(sys.shockProbBase) && mean == adj.shockMean.GetOr(sys.shockMeanBase)
  {
    var sys, cfg := NotebookSystem(), NotebookInterventions();
    ghost var adj := Modifiers(mode, age, expNeg);
    dec := EffectiveDecay(d, sys);
    rec := EffectiveRecovery(d, sys);
    alpha := sys.alphaDamageFromLowXBase;
    shockDamageScale := 1.0;
    ScaleByOne(dec);
    ScaleByOne(rec);
    if mode == "exercise" && age >= cfg.exerciseStartAge {
      rec := Scale(rec, 1.0 + cfg.exerciseRecoveryGain);
      alpha := sys.alphaDamageFromLowXBase * (1.0 - cfg.exerciseDamageReduction);
    }
    if mode == "parabiosis" && age >= cfg.parabiosisStartAge {
      var yearsOnPara := age - cfg.parabiosisStartAge;
      if yearsOnPara <= cfg.parabiosisDuration {
        var strength := expNeg(cfg.parabiosisStrengthK * yearsOnPara);
        rec := Scale(rec, Boost(cfg.parabiosisRecoveryGain, strength));
        dec := Scale(dec, Reduce(cfg.parabiosisDecayReduction, strength));
        alpha := sys.alphaDamageFromLowXBase * Reduce(cfg.parabiosisAlphaReduction, strength);
        shockDamageScale := Reduce(cfg.parabiosisShockDamageReduction, strength);
      }
    }
    prob, mean := sys.shockProbBase, sys.shockMeanBase;
    if mode == "drug" && age >= cfg.drugStartAge {
      prob := Scale(prob, cfg.drugShockFactor);
      mean := Scale(mean, cfg.drugShockFactor);
    }
  }

  /** The handler's scales and shock overrides do not depend on the organ context. */
  lemma ModifiersIgnoreContext(mode: string, age: real, organDone: bool, expNeg: real -> real)
    requires Handler(NotebookKind(mode), age, NotebookSystem(), NotebookInterventions(),
                     InterventionContext(organDone), expNeg).Ok?
    ensures var adj := Handler(NotebookKind(mode), age, NotebookSystem(), NotebookInterventions(),
                               InterventionContext(organDone), expNeg).value;
      SameModulation(adj, Modifiers(mode, age, expNeg))
  {
  }

  /**
   * The loop body up to the organ reset: the intervention block, the
   * per-subsystem shocks, decay, recovery, noise and clipping, and the
   * damage update; it is the package step's dynamics under the mode's
   * adjustment.
   */
  method NotebookDynamics(mode: string, age: real, x: Vec, d: Vec, dr: StepDraws, expNeg: real -> real,
                          ghost adj: StepAdjustment) returns (dyn: StepResult)
    requires SameModulation(adj, Modifiers(mode, age, expNeg))
    ensures dyn == Dynamics(x, d, NotebookSimulation(), NotebookSystem(), adj, dr)
  {
    var sim, sys := NotebookSimulation(), NotebookSystem();
    var dec, rec, alpha, shockDamageScale, prob, mean := NotebookModifiers(mode, age, d, expNeg);
    var local := SampleShocks(prob, mean, sys.shockStdBase, dr);
    var total := TotalShock(CouplingMatrix(d, sys), local);
    assert total == StepShock(d, sys, adj, dr);
    var xAfterShock := AfterDecayAndShock(x, dec, total, sim.dt);
    var xNew := Recover(xAfterShock, rec, MaxHealth(d, sys), sim.dt);
    assert xNew == Recovered(x, d, sim, sys, adj, total);
    xNew := AddNoise(xNew, dr.noise, sim.noiseStd);
    xNew := ClipVec(xNew, 0.0, 1.0);
    assert alpha == AlphaDamage(sys, adj);
    var dNew := DamageUpdate(d, xNew, total, alpha, sys.betaDamageFromShock, sim.dt, shockDamageScale);
    dyn := StepResult(xNew, dNew, total, false);
  }

  /** Two adjustments with the same scales and shock overrides: the dynamics cannot tell them apart. */
  predicate SameModulation(a1: StepAdjustment, a2: StepAdjustment) {
    a1.decayScale == a2.decayScale && a1.recoveryScale == a2.recoveryScale &&
    a1.alphaDamageScale == a2.alphaDamageScale && a1.shockDamageScale == a2.shockDamageScale &&
    a1.shockProb == a2.shockProb && a1.shockMean == a2.shockMean
  }

  /** `D_new[nodes] = organ_replacement_D[nodes]; X_new[nodes] = organ_replacement_X[nodes]`. */
  method OrganReset(dyn: StepResult, nodes: seq<Node>, replX: Vec, replD: Vec) returns (r: StepResult)
    ensures r == StepResult(Override(dyn.xNew, nodes, replX), Override(dyn.dNew, nodes, replD), dyn.totalShock, true)
  {
    var xArr := new real[N](i requires 0 <= i < N => dyn.xNew[i]);
    var dArr := new real[N](i requires 0 <= i < N => dyn.dNew[i]);
    assert xArr[..] == dyn.xNew && dArr[..] == dyn.dNew;
    AssignAt(dArr, nodes, replD);
    AssignAt(xArr, nodes, replX);
    r := StepResult(xArr[..], dArr[..], dyn.totalShock, true);
  }

  /**
   * The organ block's guard: the mode's handler fails exactly when an organ
   * mode without a scenario reaches the replacement age before the
   * replacement, and otherwise resets the scenario's subsystems exactly
   * when the guard holds.
   */
  lemma NotebookOrganGuard(mode: string, age: real, organDone: bool, expNeg: real -> real)
    ensures var cfg := NotebookInterventions();
      var guard := StartsWith(mode, "organ") && !organDone && age >= cfg.organReplacementAge;
      var r := Handler(NotebookKind(mode), age, NotebookSystem(), cfg, InterventionContext(organDone), expNeg);
      (r.Err? <==> guard && mode !in cfg.organScenarios) &&
      (r.Ok? ==> (r.value.replaceNodes.Some? <==> guard)) &&
      (r.Ok? && guard ==>
         r.value.replaceNodes == Some(cfg.organScenarios[mode]) &&
         r.value.replacementX == Some(cfg.organReplacementX) && r.value.replacementD == Some(cfg.organReplacementD))
  {
    NotebookKindMatchesRegistry(mode);
  }

  /**
   * One pass of the script's loop body at timestep `t`: the dynamics, then
   * the organ reset for an organ mode not yet applied at or after the
   * replacement age, raising KeyError for a mode without a scenario. It is
   * the package's handler-then-step timestep for the mode's intervention.
   */
  method NotebookStep(mode: string, t: nat, x: Vec, d: Vec, organDone: bool, draws: nat -> StepDraws,
                      expNeg: real -> real) returns (r: Result<StepRecord>)
    ensures r == Advance(NotebookEnv(mode, draws, expNeg), t, x, d, InterventionContext(organDone))
  {
    var sim, sys, cfg := NotebookSimulation(), NotebookSystem(), NotebookInterventions();
    var age := Age(sim, t);
    ghost var h := Handler(NotebookKind(mode), age, sys, cfg, InterventionContext(organDone), expNeg);
    ghost var adj := if h.Ok? then h.value else Modifiers(mode, age, expNeg);
    if h.Ok? {
      ModifiersIgnoreContext(mode, age, organDone, expNeg);
    }
    var step := NotebookDynamics(mode, age, x, d, draws(t), expNeg, adj);
    NotebookOrganGuard(mode, age, organDone, expNeg);
    if StartsWith(mode, "organ") && !organDone && age >= cfg.organReplacementAge {
      if mode !in cfg.organScenarios {
        NotebookKindMatchesRegistry(mode);
        return Err(KeyError(mode));
      }
      step := OrganReset(step, cfg.organScenarios[mode], cfg.organReplacementX, cfg.organReplacementD);
    }
    assert step == Step(x, d, sim, sys, adj, draws(t));
    ghost var env := NotebookEnv(mode, draws, expNeg);
    assert env.sim == sim && env.sys == sys && env.icfg == cfg && env.kind == NotebookKind(mode);
    assert Advance(env, t, x, d, InterventionContext(organDone)) ==
      Ok(StepRecord(age, x, d, InterventionContext(organDone), Step(x, d, sim, sys, adj, draws(t)), draws(t)));
    r := Ok(StepRecord(age, x, d, InterventionContext(organDone), step, draws(t)));
  }

  /**
   * The script's `run_sim` loop: record the current state, take one step,
   * latch the organ flag, latch the healthspan, and on death overwrite the
   * last row with the death state and stop. It is the package's run of the
   * mode's intervention under the script's constants.
   */
  method NotebookRunSim(mode: string, T: int, draws: nat -> StepDraws, expNeg: real -> real)
      returns (r: Result<SimulationResult>)
    ensures r == IntegrateSpec(NotebookEnv(mode, draws, expNeg), T)
  {
    ghost var env := NotebookEnv(mode, draws, expNeg);
    var x, d := NotebookSystem().x0, NotebookSystem().d0;
    var organDone := false;
    var t: nat := 0;
    ghost var done: seq<StepRecord> := [];
    var historyAge: seq<real>, historyX: seq<Vec>, historyD: seq<Vec> := [], [], [];
    var healthspan: Option<real> := None;
    JoinEmpty(FullTrace(env, T));
    while t < T
      invariant |done| == t
      invariant FullTrace(env, T) == Join(done, Trace(env, T, t, x, d, InterventionContext(organDone)))
      invariant NoneFatal(done, env.sim)
      invariant historyAge == AgesOf(done) && historyX == XsOf(done) && historyD == DsOf(done)
      invariant healthspan == Healthspan(done, env.sim)
      decreases T - t
    {
      var stop;
      ghost var rec;
      stop, x, d, organDone, historyAge, historyX, historyD, healthspan, rec :=
        NotebookIteration(env, mode, T, t, x, d, organDone, draws, expNeg, done, historyAge, historyX, historyD,
                          healthspan);
      if stop.Some? {
        return stop.value;
      }
      done := done + [rec];
      t := t + 1;
    }
    RunCompletes(env, T, t, x, d, InterventionContext(organDone), done);
    return Ok(SimulationResult(historyAge, historyX, historyD, healthspan, None, None));
  }

  /**
   * One pass of the script's loop body: the row before the step, the step,
   * the healthspan check and the death check. It either ends the run, with
   * the run's outcome, or hands the next state, the organ flag and the
   * extended history back to the loop.
   */
  method NotebookIteration(ghost env: Env, mode: string, T: int, t: nat, x: Vec, d: Vec, organDone: bool,
                           draws: nat -> StepDraws, expNeg: real -> real, ghost done: seq<StepRecord>,
                           historyAge: seq<real>, historyX: seq<Vec>, historyD: seq<Vec>, healthspan: Option<real>)
      returns (stop: Option<Result<SimulationResult>>, x2: Vec, d2: Vec, organDone2: bool, ages: seq<real>,
               xs: seq<Vec>, ds: seq<Vec>, span: Option<real>, ghost rec: StepRecord)
    requires env == NotebookEnv(mode, draws, expNeg) && t < T && |done| == t
    requires FullTrace(env, T) == Join(done, Trace(env, T, t, x, d, InterventionContext(organDone)))
    requires NoneFatal(done, env.sim)
    requires historyAge == AgesOf(done) && historyX == XsOf(done) && historyD == DsOf(done)
    requires healthspan == Healthspan(done, env.sim)
    ensures stop.Some? ==> stop.value == IntegrateSpec(env, T)
    ensures stop.None? ==>
      FullTrace(env, T) == Join(done + [rec], Trace(env, T, t + 1, x2, d2, InterventionContext(organDone2))) &&
      NoneFatal(done + [rec], env.sim) &&
      ages == AgesOf(done + [rec]) && xs == XsOf(done + [rec]) && ds == DsOf(done + [rec]) &&
      span == Healthspan(done + [rec], env.sim)
  {
    var sim := NotebookSimulation();
    var age := Age(sim, t);
    ages, xs, ds, span := historyAge + [age], historyX + [x], historyD + [d], healthspan;
    x2, d2, organDone2 := x, d, organDone;
    var recR := NotebookStep(mode, t, x, d, organDone, draws, expNeg);
    if recR.Err? {
      StepFails(env, T, t, x, d, InterventionContext(organDone), done);
      rec := StepRecord(age, x, d, InterventionContext(organDone), StepResult(x, d, [0.0, 0.0, 0.0], false),
                        draws(t));
      return Some(Err(recR.error)), x2, d2, organDone2, ages, xs, ds, span, rec;
    }
    var next := recR.value;
    rec := next;
    HistoryAppend(done, next, sim);
    if next.step.replacementApplied {
      organDone2 := true;
    }
    if span.None? && Mean(next.step.xNew) < sim.funcThreshold {
      span := Some(age);
    }
    if AnyBelow(next.step.xNew, sim.deathThreshold) {
      var cause := CauseOfDeath(next.step.xNew, sim.deathThreshold, draws(t).choice);
      xs := xs[..|xs| - 1] + [next.step.xNew];
      ds := ds[..|ds| - 1] + [next.step.dNew];
      StepKills(env, T, t, x, d, rec.ctx, done, rec);
      return Some(Ok(SimulationResult(ages, xs, ds, span, Some(age), Some(cause)))), x2, d2, organDone2, ages, xs,
             ds, span, rec;
    }
    StepSurvives(env, T, t, x, d, rec.ctx, done, rec);
    assert NextContext(rec.ctx, rec.step) == InterventionContext(organDone2);
    x2, d2 := next.step.xNew, next.step.dNew;
    stop := None;
  }

  /**
   * For a registered name, the script's run is the package's `run_sim` of
   * that name with default simulation and system settings and an exercise
   * onset of 40.
   */
  lemma NotebookMatchesPackage(mode: string, draws: nat -> StepDraws, expNeg: real -> real)
    requires mode in Registry
    ensures IntegrateSpec(NotebookEnv(mode, draws, expNeg), NotebookTimesteps()) ==
      RunSpec(mode, None, None, Some(DefaultInterventionConfig().(exerciseStartAge := 40.0)), draws, expNeg)
  {
    NotebookConstantsAgree();
    NotebookKindMatchesRegistry(mode);
  }

  /**
   * A name that is neither registered nor starts with "organ" runs the
   * baseline without error, where the package raises ValueError.
   */
  lemma UnknownModeRunsBaseline(mode: string, draws: nat -> StepDraws, expNeg: real -> real)
    requires mode !in Registry && !StartsWith(mode, "organ")
    ensures IntegrateSpec(NotebookEnv(mode, draws, expNeg), NotebookTimesteps()) ==
      IntegrateSpec(NotebookEnv("none", draws, expNeg), NotebookTimesteps())
    ensures IntegrateSpec(NotebookEnv(mode, draws, expNeg), NotebookTimesteps()).Ok?
    ensures RunSpec(mode, None, None, None, draws, expNeg) == Err(ValueError(mode))
  {
    NotebookKindMatchesRegistry(mode);
    NotebookKindMatchesRegistry("none");
    var env := NotebookEnv(mode, draws, expNeg);
    TraceNeverFails(env, NotebookTimesteps(), 0, env.sys.x0, env.sys.d0, FreshContext);
  }

  /** Every record of the trace is of an age before `a`. */
  ghost predicate AllBefore(tr: seq<StepRecord>, a: real) {
    forall k :: 0 <= k < |tr| ==> tr[k].age < a
  }

  lemma ConsBefore(rec: StepRecord, rest: seq<StepRecord>, a: real)
    requires rec.age < a && AllBefore(rest, a)
    ensures AllBefore([rec] + rest, a)
  {
    var tr := [rec] + rest;
    assert forall k :: 1 <= k < |tr| ==> tr[k] == rest[k - 1];
  }

  /**
   * An organ replacement whose scenario is missing raises KeyError at the
   * first step at or after the replacement age: every step of a successful
   * run is before it.
   */
  lemma {:induction false} MissingScenarioStopsBefore(env: Env, T: int, t: nat, x: Vec, d: Vec,
                                                      ctx: InterventionContext)
    requires env.kind.OrganReplacement? && env.kind.scenario !in env.icfg.organScenarios && !ctx.organDone
    requires Trace(env, T, t, x, d, ctx).Ok?
    ensures AllBefore(Trace(env, T, t, x, d, ctx).value, env.icfg.organReplacementAge)
    decreases T - t
  {
    if t < T {
      var rec := Advance(env, t, x, d, ctx).value;
      TraceUnfold(env, T, t, x, d, ctx, rec);
      MissingScenarioStep(env, t, x, d, ctx);
      if !Dead(rec.step.xNew, env.sim) {
        var ctx' := NextContext(ctx, rec.step);
        var next := Trace(env, T, t + 1, rec.step.xNew, rec.step.dNew, ctx');
        JoinOk([rec], next);
        MissingScenarioStopsBefore(env, T, t + 1, rec.step.xNew, rec.step.dNew, ctx');
        ConsBefore(rec, next.value, env.icfg.organReplacementAge);
      } else {
        assert AllBefore([rec], env.icfg.organReplacementAge);
      }
    }
  }

  /** A step that succeeds although the scenario is missing is before the replacement age and replaces nothing. */
  lemma MissingScenarioStep(env: Env, t: nat, x: Vec, d: Vec, ctx: InterventionContext)
    requires env.kind.OrganReplacement? && env.kind.scenario !in env.icfg.organScenarios && !ctx.organDone
    requires Advance(env, t, x, d, ctx).Ok?
    ensures Advance(env, t, x, d, ctx).value.age < env.icfg.organReplacementAge
    ensures NextContext(ctx, Advance(env, t, x, d, ctx).value.step) == ctx
  {
    var age := Age(env.sim, t);
    var adj := ApplyOrganReplacement(env.kind.scenario, age, env.icfg, ctx);
    assert Handler(env.kind, age, env.sys, env.icfg, ctx, env.expNeg) == adj;
  }

  /**
   * A successful run of an organ replacement whose scenario is missing
   * dies before the replacement age, or its whole time grid is.
   */
  lemma MissingScenarioOutcome(env: Env, T: int)
    requires env.kind.OrganReplacement? && env.kind.scenario !in env.icfg.organScenarios
    requires IntegrateSpec(env, T).Ok?
    ensures var res := IntegrateSpec(env, T).value;
      (res.lifespan.Some? ==> res.lifespan.value < env.icfg.organReplacementAge) &&
      (res.lifespan.None? && 0 < T ==> Age(env.sim, T - 1) < env.icfg.organReplacementAge)
  {
    var tr := FullTrace(env, T).value;
    var a := env.icfg.organReplacementAge;
    MissingScenarioStopsBefore(env, T, 0, env.sys.x0, env.sys.d0, FreshContext);
    SummaryBefore(tr, env.sim, a);
    var res := IntegrateSpec(env, T).value;
    if res.lifespan.None? && 0 < T {
      assert Age(env.sim, T - 1) < a by {
        RunResultShape(env, T);
        assert res.age[T - 1] == Age(env.sim, T - 1);
      }
    }
  }

  /** When every record is before `a`, so is every row's age of the summary, and its lifespan. */
  lemma SummaryBefore(tr: seq<StepRecord>, sim: SimulationConfig, a: real)
    requires AllBefore(tr, a)
    ensures var res := Summarize(tr, sim);
      (forall k :: 0 <= k < |res.age| ==> res.age[k] < a) && (res.lifespan.Some? ==> res.lifespan.value < a)
  {
  }

  /**
   * An unregistered name starting with "organ" either raises KeyError for
   * that name or dies before the replacement age of 65.
   */
  lemma UnknownOrganModeFailsOrDiesEarly(mode: string, draws: nat -> StepDraws, expNeg: real -> real)
    requires mode !in Registry && StartsWith(mode, "organ")
    ensures var r := IntegrateSpec(NotebookEnv(mode, draws, expNeg), NotebookTimesteps());
      (r.Err? ==> r.error == KeyError(mode)) &&
      (r.Ok? ==> r.value.lifespan.Some? && r.value.lifespan.value < 65.0)
  {
    NotebookKindMatchesRegistry(mode);
    NotebookConstantsAgree();
    var env := NotebookEnv(mode, draws, expNeg);
    if FullTrace(env, 900).Err? {
      TraceErrorIsMissingScenario(env, 900, 0, env.sys.x0, env.sys.d0, FreshContext);
    }
    if IntegrateSpec(env, 900).Ok? {
      MissingScenarioOutcome(env, 900);
      assert Age(env.sim, 899) == 119.9;
    }
  }

  /**
   * `[results[m]["lifespan"] for m in modes if ... is not None]`: the
   * lifespans of the modes that died, in order, or KeyError for the first
   * mode without a result.
   */
  function Deaths(modes: seq<string>, results: map<string, SimulationResult>): (r: Result<seq<real>>)
    ensures r.Err? <==> exists k :: 0 <= k < |modes| && modes[k] !in results
    ensures r.Err? ==> exists k :: 0 <= k < |modes| && modes[k] !in results && r.error == KeyError(modes[k]) &&
                                  (forall j :: 0 <= j < k ==> modes[j] in results)
    ensures r.Ok? ==> forall v :: v in r.value <==>
      exists k :: 0 <= k < |modes| && results[modes[k]].lifespan == Some(v)
  {
    if modes == [] then
      Ok([])
    else if modes[0] !in results then
      Err(KeyError(modes[0]))
    else
      var rest := Deaths(modes[1..], results);
      assert forall k :: 1 <= k < |modes| ==> modes[k] == modes[1..][k - 1];
      if rest.Err? then
        var j :| 0 <= j < |modes[1..]| && modes[1..][j] !in results && rest.error == KeyError(modes[1..][j]) &&
          forall i :: 0 <= i < j ==> modes[1..][i] in results;
        assert modes[j + 1] == modes[1..][j];
        Err(rest.error)
      else
        match results[modes[0]].lifespan
        case Some(v) => Ok([v] + rest.value)
        case None => Ok(rest.value)
  }

  /** Python's `max` of a non-empty list. */
  function SeqMax(s: seq<real>): (m: real)
    requires |s| > 0
    ensures m in s && forall v :: v in s ==> v <= m
  {
    if |s| == 1 then
      s[0]
    else
      var rest := SeqMax(s[1..]);
      assert forall v :: v in s ==> v == s[0] || v in s[1..];
      Max(s[0], rest)
  }

  /**
   * `max_death_age`: the largest death age among the modes, or the end of
   * the time grid when none of them died; KeyError for a mode without a
   * result.
   */
  function MaxDeathAge(modes: seq<string>, results: map<string, SimulationResult>): (r: Result<real>)
    ensures r.Err? <==> exists k :: 0 <= k < |modes| && modes[k] !in results
    ensures r.Ok? && (forall k :: 0 <= k < |modes| ==> results[modes[k]].lifespan.None?) ==>
      r.value == NotebookSimulation().startAge + NotebookSimulation().years
    ensures r.Ok? && (exists k :: 0 <= k < |modes| && results[modes[k]].lifespan.Some?) ==>
      (exists k :: 0 <= k < |modes| && results[modes[k]].lifespan == Some(r.value)) &&
      forall k :: 0 <= k < |modes| && results[modes[k]].lifespan.Some? ==>
        results[modes[k]].lifespan.value <= r.value
  {
    var deaths :- Deaths(modes, results);
    if |deaths| == 0 then
      Ok(NotebookSimulation().startAge + NotebookSimulation().years)
    else
      Ok(SeqMax(deaths))
  }
}
