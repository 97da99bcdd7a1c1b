/**
 * The engine embedded in the web page. Its step, handlers, handler table
 * and loop are those of the package; it has its own default
 * configurations (exercise starts at 40), runs the baseline for an unknown
 * intervention id instead of raising, and returns an output record whose
 * healthspan and lifespan are always numbers, with the per-row means of
 * health and damage.
 */
module WebEngine {
  import opened Wrappers
  import opened Vectors
  import opened Config
  import opened Model
  import opened Interventions
  import opened Simulation

  /** The web `SimulationConfig()` defaults. */
  function WebSimulationDefaults(): SimulationConfig {
    SimulationConfig(30.0, 90.0, 0.1, 0.6, 0.25, 0.005)
  }

  /** The web `SystemConfig()`. */
  function WebSystemConfig(): SystemConfig {
    SystemConfig(
      x0 := [0.9, 0.9, 0.9],
      d0 := [0.1, 0.1, 0.1],
      baseDecay := [0.020, 0.020, 0.020],
      betaDecay := [1.5, 1.5, 1.5],
      baseRecovery := [0.30, 0.25, 0.20],
      gammaRecovery := [1.0, 1.0, 1.0],
      kCeiling := [0.6, 0.6, 0.6],
      cBase := [[0.0, 0.10, 0.10], [0.10, 0.0, 0.10], [0.10, 0.10, 0.0]],
      gammaCoupling := 1.0,
      shockProbBase := [0.018, 0.018, 0.018],
      shockMeanBase := [0.04, 0.04, 0.04],
      shockStdBase := [0.015, 0.015, 0.015],
      alphaDamageFromLowXBase := 0.03,
      betaDamageFromShock := 0.4)
  }

  /** The web `InterventionConfig()`. */
  function WebInterventionConfig(): InterventionConfig {
    InterventionConfig(
      exerciseStartAge := 40.0,
      exerciseRecoveryGain := 0.3,
      exerciseDamageReduction := 0.3,
      drugStartAge := 60.0,
      drugShockFactor := 0.4,
      organReplacementAge := 65.0,
      organScenarios := map["organ1" := [0], "organ2" := [0, 1], "organ3" := [0, 1, 2]],
      organReplacementD := [0.15, 0.15, 0.25],
      organReplacementX := [0.90, 0.90, 0.85],
      parabiosisStartAge := 55.0,
      parabiosisDuration := 8.0,
      parabiosisStrengthK := 0.6,
      parabiosisRecoveryGain := 0.40,
      parabiosisDecayReduction := 0.20,
      parabiosisAlphaReduction := 0.40,
      parabiosisShockDamageReduction := 0.30)
  }

  /**
   * The web defaults are the package defaults, except that exercise
   * starts at 40 instead of 45.
   */
  lemma WebDefaultsAgree()
    ensures WebSimulationDefaults() == DefaultSimulationConfig()
    ensures WebSystemConfig() == DefaultSystemConfig()
    ensures WebInterventionConfig() == DefaultInterventionConfig().(exerciseStartAge := 40.0)
    ensures WebInterventionConfig().exerciseStartAge != DefaultInterventionConfig().exerciseStartAge
  {
    var w := map["organ1" := [0], "organ2" := [0, 1], "organ3" := [0, 1, 2]];
    var m := DefaultOrganScenarios();
    assert w.Keys == m.Keys;
    assert w["organ1"] == m["organ1"] && w["organ2"] == m["organ2"] && w["organ3"] == m["organ3"];
    assert w == m;
  }

  /** The settings the page sends; a key it leaves out keeps its default. */
  datatype SimOverrides = SimOverrides(startAge: Option<real>, years: Option<real>, dt: Option<real>,
                                       funcThreshold: Option<real>, deathThreshold: Option<real>,
                                       noiseStd: Option<real>)

  /** The empty settings object. */
  const NoOverrides: SimOverrides := SimOverrides(None, None, None, None, None, None)

  /** `SimulationConfig(**config)`: keyword arguments over the defaults. */
  function Overridden(o: SimOverrides): SimulationConfig {
    var base := WebSimulationDefaults();
    SimulationConfig(o.startAge.GetOr(base.startAge), o.years.GetOr(base.years), o.dt.GetOr(base.dt),
                     o.funcThreshold.GetOr(base.funcThreshold), o.deathThreshold.GetOr(base.deathThreshold),
                     o.noiseStd.GetOr(base.noiseStd))
  }

  /** `SimulationConfig(**config) if config else None`, then `run_sim`'s `SimulationConfig()` default. */
  function WebSimulationConfig(o: SimOverrides): SimulationConfig {
    var parsed := if o == NoOverrides then None else Some(Overridden(o));
    parsed.GetOr(WebSimulationDefaults())
  }

  /**
   * The configuration a run uses: each setting the page sends, and the
   * default for each one it leaves out; the empty settings object gives
   * the package's default configuration.
   */
  lemma SettingsOverrideDefaults(o: SimOverrides)
    ensures var sim := WebSimulationConfig(o);
      (o.startAge.Some? ==> sim.startAge == o.startAge.value) &&
      (o.years.Some? ==> sim.years == o.years.value) &&
      (o.dt.Some? ==> sim.dt == o.dt.value) &&
      (o.funcThreshold.Some? ==> sim.funcThreshold == o.funcThreshold.value) &&
      (o.deathThreshold.Some? ==> sim.deathThreshold == o.deathThreshold.value) &&
      (o.noiseStd.Some? ==> sim.noiseStd == o.noiseStd.value)
    ensures var sim := WebSimulationConfig(o); var base := DefaultSimulationConfig();
      (o.startAge.None? ==> sim.startAge == base.startAge) &&
      (o.years.None? ==> sim.years == base.years) &&
      (o.dt.None? ==> sim.dt == base.dt) &&
      (o.funcThreshold.None? ==> sim.funcThreshold == base.funcThreshold) &&
      (o.deathThreshold.None? ==> sim.deathThreshold == base.deathThreshold) &&
      (o.noiseStd.None? ==> sim.noiseStd == base.noiseStd)
    ensures o == NoOverrides ==> WebSimulationConfig(o) == DefaultSimulationConfig()
  {
    WebDefaultsAgree();
    assert WebSimulationConfig(o) == Overridden(o);
  }

  /**
   * `INTERVENTIONS.get(intervention, apply_none)`: the registered handler,
   * and the baseline for an id the table does not know, where the package
   * raises ValueError. An organ replacement it selects always has its
   * scenario in the web configuration.
   */
  function WebSelect(id: string): (r: Intervention)
    ensures SelectIntervention(id).Ok? ==> r == SelectIntervention(id).value
    ensures SelectIntervention(id).Err? ==> r == NoIntervention
    ensures r.OrganReplacement? ==> r.scenario in WebInterventionConfig().organScenarios
  {
    RegistryCoversDefaultScenarios();
    WebDefaultsAgree();
    if id in Registry then Registry[id] else NoIntervention
  }

  /** A web run: the web configurations around the package's one-run environment. */
  function WebEnv(kind: Intervention, sim: SimulationConfig, draws: nat -> StepDraws,
                  expNeg: real -> real): Env {
    Env(kind, sim, WebSystemConfig(), WebInterventionConfig(), draws, expNeg)
  }

  /** `np.mean(rows, axis=1)`: the cross-subsystem mean of each row. */
  function MeanRows(rows: seq<Vec>): (r: seq<real>)
    ensures |r| == |rows| && forall k :: 0 <= k < |rows| ==> r[k] == Mean(rows[k])
  {
    seq(|rows|, k requires 0 <= k < |rows| => Mean(rows[k]))
  }

  /** The JSON record the page receives. */
  datatype WebOutput = WebOutput(
    ages: seq<real>,
    x: seq<Vec>,
    d: seq<Vec>,
    healthspan: real,
    lifespan: real,
    meanX: seq<real>,
    meanD: seq<real>,
    causeOfDeath: Option<int>)

  /**
   * The output of a run: the histories and their row means; a healthspan
   * or lifespan the run did not reach is the last recorded age, so an
   * empty history raises IndexError; the cause of death as an integer, or
   * null.
   */
  function AssembleOutput(res: SimulationResult): (r: Result<WebOutput>)
    ensures r.Err? <==> |res.age| == 0
    ensures r.Err? ==> r.error == IndexError
    ensures r.Ok? ==> var out := r.value; var n := |res.age|;
      out.ages == res.age && out.x == res.xHist && out.d == res.dHist &&
      |out.meanX| == |res.xHist| && |out.meanD| == |res.dHist| &&
      (forall k :: 0 <= k < |res.xHist| ==> out.meanX[k] == Mean(res.xHist[k])) &&
      (forall k :: 0 <= k < |res.dHist| ==> out.meanD[k] == Mean(res.dHist[k])) &&
      out.healthspan == (if res.healthspan.Some? then res.healthspan.value else res.age[n - 1]) &&
      out.lifespan == (if res.lifespan.Some? then res.lifespan.value else res.age[n - 1]) &&
      (out.causeOfDeath.Some? <==> res.causeOfDeath.Some?) &&
      (res.causeOfDeath.Some? ==> out.causeOfDeath.value == res.causeOfDeath.value as int)
  {
    if |res.age| == 0 then
      Err(IndexError)
    else
      var last := res.age[|res.age| - 1];
      var cause := match res.causeOfDeath
        case Some(c) => Some(c as int)
        case None => None;
      Ok(WebOutput(res.age, res.xHist, res.dHist, res.healthspan.GetOr(last), res.lifespan.GetOr(last),
                   MeanRows(res.xHist), MeanRows(res.dHist), cause))
  }

  /** The web `run_sim` followed by the JSON mapping of its result. */
  function WebRunSpec(id: string, o: SimOverrides, draws: nat -> StepDraws,
                      expNeg: real -> real): Result<WebOutput>
  {
    var sim := WebSimulationConfig(o);
    var kind := WebSelect(id);
    var T :- Timesteps(sim);
    var res :- IntegrateSpec(WebEnv(kind, sim, draws, expNeg), T);
    AssembleOutput(res)
  }

  /** `runSimulation`: select the handler, run the package loop, assemble the output. */
  method WebRunSim(id: string, o: SimOverrides, draws: nat -> StepDraws,
                   expNeg: real -> real) returns (r: Result<WebOutput>)
    ensures r == WebRunSpec(id, o, draws, expNeg)
  {
    var sim := WebSimulationConfig(o);
    var kind := WebSelect(id);
    var T :- Timesteps(sim);
    var res :- Integrate(WebEnv(kind, sim, draws, expNeg), T);
    r := AssembleOutput(res);
  }

  /**
   * A web run is the package's run of the same intervention, or of the
   * baseline for an unknown id, under the web configurations, followed by
   * the output assembly.
   */
  lemma WebRunIsPackageRun(id: string, o: SimOverrides, draws: nat -> StepDraws, expNeg: real -> real)
    ensures var res := RunSpec(if id in Registry then id else "none", Some(WebSimulationConfig(o)), None,
                               Some(WebInterventionConfig()), draws, expNeg);
      WebRunSpec(id, o, draws, expNeg) ==
        (if res.Err? then Err(res.error) else AssembleOutput(res.value))
  {
    WebDefaultsAgree();
    assert "none" in Registry && Registry["none"] == NoIntervention;
  }

  /** An unknown intervention id runs the baseline. */
  lemma UnknownIdRunsBaseline(id: string, o: SimOverrides, draws: nat -> StepDraws, expNeg: real -> real)
    requires id !in Registry
    ensures WebRunSpec(id, o, draws, expNeg) == WebRunSpec("none", o, draws, expNeg)
  {
    assert "none" in Registry && Registry["none"] == NoIntervention;
  }

  /**
   * A web run fails exactly when the time step is zero (ZeroDivisionError)
   * or the time grid has no step (IndexError on the empty history); it
   * never raises ValueError or KeyError.
   */
  lemma WebRunErrors(id: string, o: SimOverrides, draws: nat -> StepDraws, expNeg: real -> real)
    ensures var sim := WebSimulationConfig(o); var r := WebRunSpec(id, o, draws, expNeg);
      (r.Err? <==> sim.dt == 0.0 || Trunc(sim.years / sim.dt) <= 0) &&
      (r.Err? ==> r.error == (if sim.dt == 0.0 then ZeroDivisionError else IndexError))
  {
    var sim := WebSimulationConfig(o);
    if sim.dt != 0.0 {
      var T := Timesteps(sim).value;
      var env := WebEnv(WebSelect(id), sim, draws, expNeg);
      TraceNeverFails(env, T, 0, env.sys.x0, env.sys.d0, FreshContext);
      RunResultShape(env, T);
    }
  }

  /** With the page's default settings, every intervention id runs to an output. */
  lemma DefaultWebRunSucceeds(id: string, draws: nat -> StepDraws, expNeg: real -> real)
    ensures WebRunSpec(id, NoOverrides, draws, expNeg).Ok?
  {
    SettingsOverrideDefaults(NoOverrides);
    WebRunErrors(id, NoOverrides, draws, expNeg);
  }

  /**
   * The output of a successful web run: one row per timestep taken, at the
   * ages of the time grid, with its row means; the lifespan always the
   * last recorded age; a cause of death exactly when a subsystem of the
   * last row is below the death threshold after a death, that subsystem
   * being below it; all timesteps when there is none; and, with a
   * non-negative time step, a healthspan that is a recorded age no later
   * than the lifespan.
   */
  lemma WebOutputMeaning(id: string, o: SimOverrides, draws: nat -> StepDraws, expNeg: real -> real)
    requires WebRunSpec(id, o, draws, expNeg).Ok?
    ensures var sim := WebSimulationConfig(o); var out := WebRunSpec(id, o, draws, expNeg).value;
      OutputRows(out, sim, Timesteps(sim).value) && OutputSpans(out, sim)
  {
    var sim := WebSimulationConfig(o);
    var T := Timesteps(sim).value;
    var env := WebEnv(WebSelect(id), sim, draws, expNeg);
    RunResultShape(env, T);
    var res := IntegrateSpec(env, T).value;
    RowsOfOutput(res, env, T);
    SpansOfOutput(res, env, T);
  }

  /**
   * One row per timestep taken, at the ages of the time grid, with its row
   * means; the lifespan the last recorded age; a cause of death, a
   * subsystem of the last row below the death threshold, or else all
   * timesteps taken.
   */
  ghost predicate OutputRows(out: WebOutput, sim: SimulationConfig, T: int) {
    var n := |out.ages|;
    0 < n && n <= T && |out.x| == n && |out.d| == n && |out.meanX| == n && |out.meanD| == n &&
    (forall k :: 0 <= k < n ==> out.ages[k] == Age(sim, k)) &&
    (forall k :: 0 <= k < n ==> out.meanX[k] == Mean(out.x[k]) && out.meanD[k] == Mean(out.d[k])) &&
    out.lifespan == out.ages[n - 1] &&
    (out.causeOfDeath.None? ==> n == T) &&
    (out.causeOfDeath.Some? ==>
       0 <= out.causeOfDeath.value < N && out.x[n - 1][out.causeOfDeath.value] < sim.deathThreshold)
  }

  /** With a non-negative time step, the healthspan is a recorded age no later than the lifespan. */
  ghost predicate OutputSpans(out: WebOutput, sim: SimulationConfig) {
    var n := |out.ages|;
    0.0 <= sim.dt && 0 < n ==>
      (exists k :: 0 <= k < n && out.healthspan == out.ages[k]) && out.healthspan <= out.lifespan
  }

  lemma RowsOfOutput(res: SimulationResult, env: Env, T: int)
    requires RowsShape(res, env, T) && AssembleOutput(res).Ok?
    ensures OutputRows(AssembleOutput(res).value, env.sim, T)
  {
  }

  lemma SpansOfOutput(res: SimulationResult, env: Env, T: int)
    requires RowsShape(res, env, T) && HealthspanShape(res) && AssembleOutput(res).Ok?
    ensures OutputSpans(AssembleOutput(res).value, env.sim)
  {
    if 0.0 <= env.sim.dt {
      SpansOrdered(res, env.sim);
    }
  }

  lemma SpansOrdered(res: SimulationResult, sim: SimulationConfig)
    requires 0 < |res.age| && 0.0 <= sim.dt && HealthspanShape(res)
    requires forall k :: 0 <= k < |res.age| ==> res.age[k] == Age(sim, k)
    requires res.lifespan.Some? ==> res.lifespan.value == res.age[|res.age| - 1]
    ensures var last := res.age[|res.age| - 1];
      var h := res.healthspan.GetOr(last);
      (exists k :: 0 <= k < |res.age| && h == res.age[k]) && h <= res.lifespan.GetOr(last)
  {
    var n := |res.age|;
    var k: nat := n - 1;
    if res.healthspan.Some? {
      k :| 0 <= k < n && res.healthspan.value == res.age[k];
    }
    assert res.age[k] == Age(sim, k) && res.age[n - 1] == Age(sim, n - 1);
    AgeMonotone(sim, k, n - 1);
    assert res.age[k] <= res.age[n - 1];
    assert res.healthspan.GetOr(res.age[n - 1]) == res.age[k];
  }

  /**
   * Every row of a web run's output is in bounds, so each mean health is
   * in [0, 1] and each mean damage in [0, 1.5].
   */
  lemma WebMeansInRange(id: string, o: SimOverrides, draws: nat -> StepDraws, expNeg: real -> real)
    requires WebRunSpec(id, o, draws, expNeg).Ok?
    ensures var out := WebRunSpec(id, o, draws, expNeg).value;
      |out.meanX| == |out.x| && |out.meanD| == |out.d| &&
      (forall k :: 0 <= k < |out.meanX| ==> 0.0 <= out.meanX[k] <= 1.0) &&
      (forall k :: 0 <= k < |out.meanD| ==> 0.0 <= out.meanD[k] <= 1.5)
  {
    var sim := WebSimulationConfig(o);
    var T := Timesteps(sim).value;
    var env := WebEnv(WebSelect(id), sim, draws, expNeg);
    WebDefaultsAgree();
    ResultInBounds(env, T);
    var res := IntegrateSpec(env, T).value;
    var out := AssembleOutput(res).value;
    forall k | 0 <= k < |out.meanX|
      ensures 0.0 <= out.meanX[k] <= 1.0 && 0.0 <= out.meanD[k] <= 1.5
    {
      assert InBounds(res.xHist[k], res.dHist[k]);
      MeanInRange(res.xHist[k], 1.0);
      MeanInRange(res.dHist[k], 1.5);
    }
  }

  lemma MeanInRange(v: Vec, hi: real)
    requires forall i: Node :: 0.0 <= v[i] <= hi
    ensures 0.0 <= Mean(v) <= hi
  {
    assert 0.0 <= v[0] <= hi && 0.0 <= v[1] <= hi && 0.0 <= v[2] <= hi;
  }
}
