/**
 * Orchestration of one stochastic run and of a Monte Carlo ensemble.
 *
 * `Trace` is the reference definition of a run: the records of the
 * timesteps taken, stopping after the first step whose new health has a
 * subsystem below the death threshold. `Summarize` turns the records into
 * the run's result. The methods `Integrate`, `RunSim` and `RunMany` are the
 * loops of the engine, each proved equal to its reference definition.
 */
module Simulation {
  import opened Wrappers
  import opened Vectors
  import opened Config
  import opened Model
  import opened Interventions

  /** `_select_intervention`: the registered handler, or ValueError for an unknown name. */
  function SelectIntervention(name: string): (r: Result<Intervention>)
    ensures r.Ok? <==> name in Registry
    ensures r.Ok? ==> r.value == Registry[name]
    ensures r.Err? ==> r.error == ValueError(name)
  {
    if name in Registry then Ok(Registry[name]) else Err(ValueError(name))
  }

  /**
   * Everything one run depends on: the handler, the three configurations,
   * the random draws of each timestep, and `exp(-x)`.
   */
  datatype Env = Env(kind: Intervention, sim: SimulationConfig, sys: SystemConfig, icfg: InterventionConfig,
                     draws: nat -> StepDraws, expNeg: real -> real)

  /** `age = start_age + t * dt`. */
  function Age(sim: SimulationConfig, t: int): real {
    sim.startAge + t as real * sim.dt
  }

  /** With a non-negative time step, later steps have later ages. */
  lemma AgeMonotone(sim: SimulationConfig, j: int, k: int)
    requires j <= k && 0.0 <= sim.dt
    ensures Age(sim, j) <= Age(sim, k)
  {
    if 0.0 < sim.dt {
      MulMonotone(j as real, k as real, sim.dt);
    }
  }

  /** `np.any(X < death_threshold)`. */
  predicate Dead(x: Vec, sim: SimulationConfig) {
    AnyBelow(x, sim.deathThreshold)
  }

  /** One timestep: its age, the state and context before it, its step result and its draws. */
  datatype StepRecord = StepRecord(age: real, x: Vec, d: Vec, ctx: InterventionContext, step: StepResult,
                                   draws: StepDraws)

  /** The context after a step: the organ replacement is marked done once applied. */
  function NextContext(ctx: InterventionContext, st: StepResult): (r: InterventionContext)
    ensures r.organDone <==> ctx.organDone || st.replacementApplied
  {
    if st.replacementApplied then ctx.(organDone := true) else ctx
  }

  /**
   * Timestep `t` from state `(x, d)`: the handler's adjustment, then the
   * step. A step resets nodes only under an organ replacement not yet
   * done, and keeps the state in bounds when the replacement state is.
   */
  function Advance(env: Env, t: nat, x: Vec, d: Vec, ctx: InterventionContext): (r: Result<StepRecord>)
    ensures r.Err? ==> env.kind.OrganReplacement? && r.error == KeyError(env.kind.scenario)
    ensures r.Ok? ==>
      r.value.age == Age(env.sim, t) && r.value.x == x && r.value.d == d &&
      r.value.ctx == ctx && r.value.draws == env.draws(t)
    ensures r.Ok? && r.value.step.replacementApplied ==> env.kind.OrganReplacement? && !ctx.organDone
    ensures r.Ok? && InBounds(env.icfg.organReplacementX, env.icfg.organReplacementD) ==>
      InBounds(r.value.step.xNew, r.value.step.dNew)
    ensures (!env.kind.OrganReplacement? || env.kind.scenario in env.icfg.organScenarios) ==> r.Ok?
  {
    var age := Age(env.sim, t);
    var adj :- Handler(env.kind, age, env.sys, env.icfg, ctx, env.expNeg);
    Ok(StepRecord(age, x, d, ctx, Step(x, d, env.sim, env.sys, adj, env.draws(t)), env.draws(t)))
  }

  /** `done` followed by the records of `r`, or the error of `r`. */
  function Join(done: seq<StepRecord>, r: Result<seq<StepRecord>>): Result<seq<StepRecord>> {
    match r
    case Ok(rest) => Ok(done + rest)
    case Err(e) => Err(e)
  }

  /**
   * The records of timesteps `t, t + 1, ...` below `T`, from state `(x, d)`
   * and context `ctx`: stops after a step that kills, and fails with the
   * first handler error.
   */
  function Trace(env: Env, T: int, t: nat, x: Vec, d: Vec, ctx: InterventionContext): Result<seq<StepRecord>>
    decreases T - t
  {
    if T <= t then
      Ok([])
    else
      var rec :- Advance(env, t, x, d, ctx);
      if Dead(rec.step.xNew, env.sim) then
        Ok([rec])
      else
        Join([rec], Trace(env, T, t + 1, rec.step.xNew, rec.step.dNew, NextContext(ctx, rec.step)))
  }

  /** Outputs from a single stochastic run. */
  datatype SimulationResult = SimulationResult(
    age: seq<real>,
    xHist: seq<Vec>,
    dHist: seq<Vec>,
    healthspan: Option<real>,
    lifespan: Option<real>,
    causeOfDeath: Option<Node>)

  function AgesOf(tr: seq<StepRecord>): (r: seq<real>)
    ensures |r| == |tr| && forall k :: 0 <= k < |tr| ==> r[k] == tr[k].age
  {
    seq(|tr|, k requires 0 <= k < |tr| => tr[k].age)
  }

  function XsOf(tr: seq<StepRecord>): (r: seq<Vec>)
    ensures |r| == |tr| && forall k :: 0 <= k < |tr| ==> r[k] == tr[k].x
  {
    seq(|tr|, k requires 0 <= k < |tr| => tr[k].x)
  }

  function DsOf(tr: seq<StepRecord>): (r: seq<Vec>)
    ensures |r| == |tr| && forall k :: 0 <= k < |tr| ==> r[k] == tr[k].d
  {
    seq(|tr|, k requires 0 <= k < |tr| => tr[k].d)
  }

  /**
   * The index of the first step whose new mean health is below `thr`:
   * every earlier step is at or above it, and there is none exactly when
   * every step is.
   */
  function FirstCrossing(tr: seq<StepRecord>, thr: real): (r: Option<nat>)
    ensures r.None? <==> forall k :: 0 <= k < |tr| ==> thr <= Mean(tr[k].step.xNew)
    ensures r.Some? ==>
      r.value < |tr| && Mean(tr[r.value].step.xNew) < thr &&
      forall j :: 0 <= j < r.value ==> thr <= Mean(tr[j].step.xNew)
    decreases |tr|
  {
    if |tr| == 0 then
      None
    else
      var prefix := tr[..|tr| - 1];
      var p := FirstCrossing(prefix, thr);
      assert forall k :: 0 <= k < |prefix| ==> prefix[k] == tr[k];
      if p.Some? then p
      else if Mean(tr[|tr| - 1].step.xNew) < thr then Some(|tr| - 1)
      else None
  }

  /** The healthspan: the age of the first step whose new mean health is below `func_threshold`. */
  function Healthspan(tr: seq<StepRecord>, sim: SimulationConfig): Option<real> {
    match FirstCrossing(tr, sim.funcThreshold)
    case None => None
    case Some(k) => Some(tr[k].age)
  }

  /** `np.maximum(death_threshold - X, 0)`. */
  function Deficits(x: Vec, thr: real): (r: Vec)
    ensures forall i: Node :: r[i] == Max(thr - x[i], 0.0)
    ensures NonNegative(r)
  {
    seq(N, i requires 0 <= i < N => Max(thr - x[i], 0.0))
  }

  /** `u < a / s` with `s > 0` compares `u * s` with `a`. */
  lemma BelowQuotient(u: real, a: real, s: real)
    requires 0.0 < s
    ensures u < a / s <==> u * s < a
  {
    assert (a / s) * s == a;
    if u < a / s {
      assert u * s < (a / s) * s;
    } else {
      assert (a / s) * s <= u * s;
    }
  }

  /**
   * NumPy's `choice(arange(3), p=w / w.sum())` on the uniform draw `u`:
   * the first index whose cumulative probability exceeds `u`. The chosen
   * index always has a positive weight.
   */
  function WeightedChoice(w: Vec, u: Unit): (r: Node)
    requires NonNegative(w) && 0.0 < Sum(w)
    ensures 0.0 < w[r]
  {
    var s := Sum(w);
    assert s == w[0] + w[1] + w[2];
    BelowQuotient(u, w[0], s);
    BelowQuotient(u, w[0] + w[1], s);
    assert 0.0 <= u * s < s by {
      assert u * s < 1.0 * s;
    }
    if u < w[0] / s then 0
    else if u < (w[0] + w[1]) / s then 1
    else 2
  }

  /**
   * The cause of death: drawn with probability proportional to each
   * subsystem's deficit below the threshold, or the weakest subsystem
   * when no deficit is positive. For a dead state the cause is always a
   * subsystem below the threshold.
   */
  function CauseOfDeath(x: Vec, thr: real, u: Unit): (r: Node)
    ensures AnyBelow(x, thr) ==> x[r] < thr
  {
    var deficits := Deficits(x, thr);
    if Sum(deficits) > 0.0 then
      WeightedChoice(deficits, u)
    else
      DeathHasPositiveDeficit(x, thr);
      Argmin(x)
  }

  /** A dead state has a positive total deficit, so the `argmin` fallback never decides a death. */
  lemma DeathHasPositiveDeficit(x: Vec, thr: real)
    ensures AnyBelow(x, thr) <==> 0.0 < Sum(Deficits(x, thr))
  {
    var w := Deficits(x, thr);
    if AnyBelow(x, thr) {
      var i: Node :| x[i] < thr;
      assert 0.0 < w[i];
    } else {
      assert w[0] == 0.0 && w[1] == 0.0 && w[2] == 0.0;
    }
  }

  /**
   * The result of a run from its records: the ages and pre-step states of
   * every step taken, except that a fatal step's row holds the death
   * state; the healthspan; and the age and cause of death, if any.
   */
  function Summarize(tr: seq<StepRecord>, sim: SimulationConfig): SimulationResult {
    if |tr| > 0 && Dead(tr[|tr| - 1].step.xNew, sim) then
      var last := tr[|tr| - 1];
      var before := tr[..|tr| - 1];
      SimulationResult(AgesOf(tr), XsOf(before) + [last.step.xNew], DsOf(before) + [last.step.dNew],
                       Healthspan(tr, sim), Some(last.age),
                       Some(CauseOfDeath(last.step.xNew, sim.deathThreshold, last.draws.choice)))
    else
      SimulationResult(AgesOf(tr), XsOf(tr), DsOf(tr), Healthspan(tr, sim), None, None)
  }

  /** A run of `T` timesteps in environment `env`, from the initial state and a fresh context. */
  function IntegrateSpec(env: Env, T: int): Result<SimulationResult> {
    var tr :- Trace(env, T, 0, env.sys.x0, env.sys.d0, FreshContext);
    Ok(Summarize(tr, env.sim))
  }

  /**
   * `run_sim`: missing configurations take their defaults; the handler is
   * selected before the number of timesteps is computed.
   */
  function RunSpec(intervention: string, simCfg: Option<SimulationConfig>, sysCfg: Option<SystemConfig>,
                   icfgOpt: Option<InterventionConfig>, draws: nat -> StepDraws,
                   expNeg: real -> real): Result<SimulationResult>
  {
    var sim := simCfg.GetOr(DefaultSimulationConfig());
    var sys := sysCfg.GetOr(DefaultSystemConfig());
    var icfg := icfgOpt.GetOr(DefaultInterventionConfig());
    var kind :- SelectIntervention(intervention);
    var T :- Timesteps(sim);
    IntegrateSpec(Env(kind, sim, sys, icfg, draws, expNeg), T)
  }

  lemma JoinOk(done: seq<StepRecord>, r: Result<seq<StepRecord>>)
    requires Join(done, r).Ok?
    ensures r.Ok? && Join(done, r).value == done + r.value
  {
  }

  lemma JoinEmpty(r: Result<seq<StepRecord>>)
    ensures Join([], r) == r
  {
    match r
    case Ok(rest) =>
      assert [] + rest == rest;
    case Err(_) =>
  }

  lemma JoinAppend(done: seq<StepRecord>, rec: StepRecord, r: Result<seq<StepRecord>>)
    ensures Join(done, Join([rec], r)) == Join(done + [rec], r)
  {
    match r
    case Ok(rest) =>
      assert done + ([rec] + rest) == (done + [rec]) + rest;
    case Err(_) =>
  }

  lemma HistoryAppend(done: seq<StepRecord>, rec: StepRecord, sim: SimulationConfig)
    ensures AgesOf(done + [rec]) == AgesOf(done) + [rec.age]
    ensures XsOf(done + [rec]) == XsOf(done) + [rec.x]
    ensures DsOf(done + [rec]) == DsOf(done) + [rec.d]
    ensures (done + [rec])[..|done|] == done
    ensures Healthspan(done + [rec], sim) ==
      (if Healthspan(done, sim).Some? then Healthspan(done, sim)
       else if Mean(rec.step.xNew) < sim.funcThreshold then Some(rec.age)
       else None)
  {
    var tr := done + [rec];
    assert tr[..|done|] == done;
    var p := FirstCrossing(done, sim.funcThreshold);
    if p.Some? {
      assert tr[p.value] == done[p.value];
    }
  }

  /** One unfolding of `Trace` at a step that yields `rec`. */
  lemma TraceUnfold(env: Env, T: int, t: nat, x: Vec, d: Vec, ctx: InterventionContext, rec: StepRecord)
    requires t < T && Advance(env, t, x, d, ctx) == Ok(rec)
    ensures Trace(env, T, t, x, d, ctx) ==
      if Dead(rec.step.xNew, env.sim) then Ok([rec])
      else Join([rec], Trace(env, T, t + 1, rec.step.xNew, rec.step.dNew, NextContext(ctx, rec.step)))
  {
  }

  /** No record's step kills. */
  ghost predicate NoneFatal(tr: seq<StepRecord>, sim: SimulationConfig) {
    forall k :: 0 <= k < |tr| ==> !Dead(tr[k].step.xNew, sim)
  }

  /** The records of a whole run, from the initial state and a fresh context. */
  function FullTrace(env: Env, T: int): Result<seq<StepRecord>> {
    Trace(env, T, 0, env.sys.x0, env.sys.d0, FreshContext)
  }

  /** A run whose records so far are `done` and whose handler fails at step `t` fails with that error. */
  lemma StepFails(env: Env, T: int, t: nat, x: Vec, d: Vec, ctx: InterventionContext, done: seq<StepRecord>)
    requires t < T && Advance(env, t, x, d, ctx).Err?
    requires FullTrace(env, T) == Join(done, Trace(env, T, t, x, d, ctx))
    ensures IntegrateSpec(env, T) == Err(Advance(env, t, x, d, ctx).error)
  {
  }

  /** A run whose step `t` kills ends with that step: its row holds the death state. */
  lemma StepKills(env: Env, T: int, t: nat, x: Vec, d: Vec, ctx: InterventionContext, done: seq<StepRecord>,
                  rec: StepRecord)
    requires t < T && Advance(env, t, x, d, ctx) == Ok(rec) && Dead(rec.step.xNew, env.sim)
    requires FullTrace(env, T) == Join(done, Trace(env, T, t, x, d, ctx))
    ensures IntegrateSpec(env, T) ==
      Ok(SimulationResult(AgesOf(done) + [rec.age], XsOf(done) + [rec.step.xNew], DsOf(done) + [rec.step.dNew],
                          Healthspan(done + [rec], env.sim), Some(rec.age),
                          Some(CauseOfDeath(rec.step.xNew, env.sim.deathThreshold, rec.draws.choice))))
  {
    TraceUnfold(env, T, t, x, d, ctx, rec);
    HistoryAppend(done, rec, env.sim);
  }

  /** A run whose step `t` does not kill goes on from the new state and context. */
  lemma StepSurvives(env: Env, T: int, t: nat, x: Vec, d: Vec, ctx: InterventionContext, done: seq<StepRecord>,
                     rec: StepRecord)
    requires t < T && Advance(env, t, x, d, ctx) == Ok(rec) && !Dead(rec.step.xNew, env.sim)
    requires FullTrace(env, T) == Join(done, Trace(env, T, t, x, d, ctx))
    requires NoneFatal(done, env.sim)
    ensures FullTrace(env, T) ==
      Join(done + [rec], Trace(env, T, t + 1, rec.step.xNew, rec.step.dNew, NextContext(ctx, rec.step)))
    ensures NoneFatal(done + [rec], env.sim)
  {
    TraceUnfold(env, T, t, x, d, ctx, rec);
    JoinAppend(done, rec, Trace(env, T, t + 1, rec.step.xNew, rec.step.dNew, NextContext(ctx, rec.step)));
  }

  /** A run that reaches the end of the time grid keeps every row and has neither lifespan nor cause. */
  lemma RunCompletes(env: Env, T: int, t: nat, x: Vec, d: Vec, ctx: InterventionContext, done: seq<StepRecord>)
    requires T <= t && FullTrace(env, T) == Join(done, Trace(env, T, t, x, d, ctx))
    requires NoneFatal(done, env.sim)
    ensures IntegrateSpec(env, T) ==
      Ok(SimulationResult(AgesOf(done), XsOf(done), DsOf(done), Healthspan(done, env.sim), None, None))
  {
    assert done + [] == done;
  }

  /**
   * The engine's loop over timesteps: records the current state, asks the
   * handler for the adjustment, steps, marks the organ replacement done,
   * tracks the healthspan, and on death overwrites the last recorded row
   * with the death state and stops.
   */
  method Integrate(env: Env, T: int) returns (r: Result<SimulationResult>)
    ensures r == IntegrateSpec(env, T)
  {
    var x, d := env.sys.x0, env.sys.d0;
    var ctx := FreshContext;
    var t: nat := 0;
    ghost var done: seq<StepRecord> := [];
    var historyAge: seq<real>, historyX: seq<Vec>, historyD: seq<Vec> := [], [], [];
    var healthspan: Option<real> := None;
    JoinEmpty(FullTrace(env, T));
    while t < T
      invariant |done| == t
      invariant FullTrace(env, T) == Join(done, Trace(env, T, t, x, d, ctx))
      invariant NoneFatal(done, env.sim)
      invariant historyAge == AgesOf(done) && historyX == XsOf(done) && historyD == DsOf(done)
      invariant healthspan == Healthspan(done, env.sim)
      decreases T - t
    {
      var age := Age(env.sim, t);
      historyAge := historyAge + [age];
      historyX := historyX + [x];
      historyD := historyD + [d];
      var recR := Timestep(env, t, x, d, ctx);
      if recR.Err? {
        StepFails(env, T, t, x, d, ctx, done);
        return Err(recR.error);
      }
      var rec := recR.value;
      HistoryAppend(done, rec, env.sim);
      var meanX := Mean(rec.step.xNew);
      if healthspan.None? && meanX < env.sim.funcThreshold {
        healthspan := Some(age);
      }
      if AnyBelow(rec.step.xNew, env.sim.deathThreshold) {
        var cause := CauseOfDeath(rec.step.xNew, env.sim.deathThreshold, env.draws(t).choice);
        historyX := historyX[..|historyX| - 1] + [rec.step.xNew];
        historyD := historyD[..|historyD| - 1] + [rec.step.dNew];
        StepKills(env, T, t, x, d, ctx, done, rec);
        return Ok(SimulationResult(historyAge, historyX, historyD, healthspan, Some(age), Some(cause)));
      }
      StepSurvives(env, T, t, x, d, ctx, done, rec);
      x, d, ctx := rec.step.xNew, rec.step.dNew, NextContext(ctx, rec.step);
      done := done + [rec];
      t := t + 1;
    }
    RunCompletes(env, T, t, x, d, ctx, done);
    return Ok(SimulationResult(historyAge, historyX, historyD, healthspan, None, None));
  }

  /** One pass of the loop body: the handler's adjustment for this age, then `step_state`. */
  method Timestep(env: Env, t: nat, x: Vec, d: Vec, ctx: InterventionContext) returns (r: Result<StepRecord>)
    ensures r == Advance(env, t, x, d, ctx)
  {
    var age := Age(env.sim, t);
    var adjustment := Handler(env.kind, age, env.sys, env.icfg, ctx, env.expNeg);
    if adjustment.Err? {
      return Err(adjustment.error);
    }
    var step := StepState(x, d, age, env.sim, env.sys, adjustment.value, env.draws(t));
    return Ok(StepRecord(age, x, d, ctx, step, env.draws(t)));
  }

  /** `run_sim` with its configuration defaults, handler selection and time grid. */
  method RunSim(intervention: string, simCfg: Option<SimulationConfig>, sysCfg: Option<SystemConfig>,
                icfgOpt: Option<InterventionConfig>, draws: nat -> StepDraws,
                expNeg: real -> real) returns (r: Result<SimulationResult>)
    ensures r == RunSpec(intervention, simCfg, sysCfg, icfgOpt, draws, expNeg)
  {
    var sim := simCfg.GetOr(DefaultSimulationConfig());
    var sys := sysCfg.GetOr(DefaultSystemConfig());
    var icfg := icfgOpt.GetOr(DefaultInterventionConfig());
    var kind :- SelectIntervention(intervention);
    var T :- Timesteps(sim);
    r := Integrate(Env(kind, sim, sys, icfg, draws, expNeg), T);
  }

  /** The healthspans and lifespans of an ensemble; a missing value stands for NumPy's `nan`. */
  datatype Ensemble = Ensemble(healthspans: seq<Option<real>>, lifespans: seq<Option<real>>)

  /**
   * The ensemble of runs `0 .. n - 1` whose outcomes are `runs`: the first
   * failing run's error, or the runs' healthspans and lifespans in order.
   */
  function Collect(runs: nat -> Result<SimulationResult>, n: int): Result<Ensemble>
    decreases n
  {
    if n <= 0 then
      Ok(Ensemble([], []))
    else
      var prev :- Collect(runs, n - 1);
      var res :- runs(n - 1);
      Ok(Ensemble(prev.healthspans + [res.healthspan], prev.lifespans + [res.lifespan]))
  }

  /** `run_many` with `n` runs, run `k` taking the draws `runDraws(k)`. */
  function RunManySpec(intervention: string, n: int, simCfg: Option<SimulationConfig>,
                       sysCfg: Option<SystemConfig>, icfgOpt: Option<InterventionConfig>,
                       runDraws: nat -> nat -> StepDraws, expNeg: real -> real): Result<Ensemble>
  {
    Collect((k: nat) => RunSpec(intervention, simCfg, sysCfg, icfgOpt, runDraws(k), expNeg), n)
  }

  /** Once run `k` fails, every longer ensemble fails with its error. */
  lemma {:induction false} CollectStopsAtFailure(runs: nat -> Result<SimulationResult>, k: nat, n: int)
    requires k < n && Collect(runs, k).Ok? && runs(k).Err?
    ensures Collect(runs, n) == Err(runs(k).error)
    decreases n
  {
    if k < n - 1 {
      CollectStopsAtFailure(runs, k, n - 1);
    }
  }

  /**
   * An ensemble succeeds exactly when every run does, and then holds one
   * healthspan and one lifespan per run, in run order, missing where the
   * run's is.
   */
  lemma {:induction false} CollectShape(runs: nat -> Result<SimulationResult>, n: int)
    ensures Collect(runs, n).Ok? <==> forall k: nat :: k < n ==> runs(k).Ok?
    ensures Collect(runs, n).Ok? ==>
      var e := Collect(runs, n).value;
      |e.healthspans| == |e.lifespans| == (if n < 0 then 0 else n) &&
      forall k :: 0 <= k < |e.healthspans| ==>
        e.healthspans[k] == runs(k).value.healthspan && e.lifespans[k] == runs(k).value.lifespan
    decreases n
  {
    if 0 < n {
      CollectShape(runs, n - 1);
      if Collect(runs, n - 1).Ok? && runs(n - 1).Ok? {
        var prev := Collect(runs, n - 1).value;
        var e := Collect(runs, n).value;
        assert e.healthspans == prev.healthspans + [runs(n - 1).value.healthspan];
        assert e.lifespans == prev.lifespans + [runs(n - 1).value.lifespan];
      }
    }
  }

  lemma CollectNext(runs: nat -> Result<SimulationResult>, k: nat, hs: seq<Option<real>>, ls: seq<Option<real>>,
                    res: SimulationResult)
    requires Collect(runs, k) == Ok(Ensemble(hs, ls)) && runs(k) == Ok(res)
    ensures Collect(runs, k + 1) == Ok(Ensemble(hs + [res.healthspan], ls + [res.lifespan]))
  {
  }

  lemma CollectDone(runs: nat -> Result<SimulationResult>, k: nat, n: int, e: Ensemble)
    requires Collect(runs, k) == Ok(e) && (k == n || (k == 0 && n <= 0))
    ensures Collect(runs, n) == Ok(e)
  {
  }

  /** `run_many`: one run per index, appending each run's healthspan and lifespan. */
  method RunMany(intervention: string, n: int, simCfg: Option<SimulationConfig>,
                 sysCfg: Option<SystemConfig>, icfgOpt: Option<InterventionConfig>,
                 runDraws: nat -> nat -> StepDraws, expNeg: real -> real) returns (r: Result<Ensemble>)
    ensures r == RunManySpec(intervention, n, simCfg, sysCfg, icfgOpt, runDraws, expNeg)
  {
    r := RunEach((k: nat) => RunSpec(intervention, simCfg, sysCfg, icfgOpt, runDraws(k), expNeg),
                 intervention, n, simCfg, sysCfg, icfgOpt, runDraws, expNeg);
  }

  /** Run `k` of `run_many` is `runs(k)`. */
  ghost predicate RunsOf(runs: nat -> Result<SimulationResult>, intervention: string, simCfg: Option<SimulationConfig>,
                         sysCfg: Option<SystemConfig>, icfgOpt: Option<InterventionConfig>,
                         runDraws: nat -> nat -> StepDraws, expNeg: real -> real)
  {
    forall k: nat {:trigger runDraws(k)} :: runs(k) == RunSpec(intervention, simCfg, sysCfg, icfgOpt, runDraws(k), expNeg)
  }

  /** Run `k` of `run_many`: its error ends the ensemble, its healthspan and lifespan extend it. */
  method RunOne(ghost runs: nat -> Result<SimulationResult>, k: nat, n: int, hs: seq<Option<real>>,
                ls: seq<Option<real>>, intervention: string, simCfg: Option<SimulationConfig>,
                sysCfg: Option<SystemConfig>, icfgOpt: Option<InterventionConfig>,
                runDraws: nat -> nat -> StepDraws, expNeg: real -> real)
      returns (stop: Option<Result<Ensemble>>, hs2: seq<Option<real>>, ls2: seq<Option<real>>)
    requires RunsOf(runs, intervention, simCfg, sysCfg, icfgOpt, runDraws, expNeg)
    requires k < n && Collect(runs, k) == Ok(Ensemble(hs, ls))
    ensures stop.Some? ==> stop.value == Collect(runs, n)
    ensures stop.None? ==> Collect(runs, k + 1) == Ok(Ensemble(hs2, ls2))
  {
    var result := RunSim(intervention, simCfg, sysCfg, icfgOpt, runDraws(k), expNeg);
    if result.Err? {
      CollectStopsAtFailure(runs, k, n);
      return Some(Err(result.error)), hs, ls;
    }
    CollectNext(runs, k, hs, ls, result.value);
    return None, hs + [result.value.healthspan], ls + [result.value.lifespan];
  }

  /** The loop of `run_many`, over the runs `runs(k)` it performs. */
  method RunEach(ghost runs: nat -> Result<SimulationResult>, intervention: string, n: int,
                 simCfg: Option<SimulationConfig>, sysCfg: Option<SystemConfig>, icfgOpt: Option<InterventionConfig>,
                 runDraws: nat -> nat -> StepDraws, expNeg: real -> real) returns (r: Result<Ensemble>)
    requires RunsOf(runs, intervention, simCfg, sysCfg, icfgOpt, runDraws, expNeg)
    ensures r == Collect(runs, n)
  {
    var hs: seq<Option<real>> := [];
    var ls: seq<Option<real>> := [];
    var k: nat := 0;
    while k < n
      invariant k <= n || k == 0
      invariant Collect(runs, k) == Ok(Ensemble(hs, ls))
      decreases n - k
    {
      var stop;
      stop, hs, ls := RunOne(runs, k, n, hs, ls, intervention, simCfg, sysCfg, icfgOpt, runDraws, expNeg);
      if stop.Some? {
        return stop.value;
      }
      k := k + 1;
    }
    CollectDone(runs, k, n, Ensemble(hs, ls));
    return Ok(Ensemble(hs, ls));
  }

  /** Each record starts from the state and context its predecessor's step left behind. */
  ghost predicate Threaded(tr: seq<StepRecord>, x: Vec, d: Vec, ctx: InterventionContext) {
    (|tr| > 0 ==> tr[0].x == x && tr[0].d == d && tr[0].ctx == ctx) &&
    forall k :: 0 <= k < |tr| - 1 ==>
      tr[k + 1].x == tr[k].step.xNew && tr[k + 1].d == tr[k].step.dNew &&
      tr[k + 1].ctx == NextContext(tr[k].ctx, tr[k].step)
  }

  /**
   * What a record of timestep `t` says about that step: its age and draws;
   * a reset only under an organ replacement not yet done; and a new state
   * in bounds whenever the replacement state is.
   */
  ghost predicate RecordFacts(env: Env, t: nat, rec: StepRecord) {
    rec.age == Age(env.sim, t) && rec.draws == env.draws(t) &&
    (rec.step.replacementApplied ==> env.kind.OrganReplacement? && !rec.ctx.organDone) &&
    (InBounds(env.icfg.organReplacementX, env.icfg.organReplacementD) ==> InBounds(rec.step.xNew, rec.step.dNew))
  }

  /** Record `k` holds the facts of timestep `t + k`. */
  ghost predicate StepFacts(env: Env, t: nat, tr: seq<StepRecord>) {
    forall k :: 0 <= k < |tr| ==> RecordFacts(env, t + k, tr[k])
  }

  /** No step but possibly the last kills. */
  ghost predicate OnlyLastFatal(tr: seq<StepRecord>, sim: SimulationConfig) {
    forall k :: 0 <= k < |tr| - 1 ==> !Dead(tr[k].step.xNew, sim)
  }

  /** A run that stops before `T` stops on a death. */
  ghost predicate EndsEarlyOnDeath(tr: seq<StepRecord>, t: nat, T: int, sim: SimulationConfig) {
    t + |tr| < T ==> 0 < |tr| && Dead(tr[|tr| - 1].step.xNew, sim)
  }

  lemma ConsSurvivor(rec: StepRecord, rest: seq<StepRecord>, t: nat, T: int, sim: SimulationConfig)
    requires !Dead(rec.step.xNew, sim)
    requires OnlyLastFatal(rest, sim) && EndsEarlyOnDeath(rest, t + 1, T, sim)
    ensures OnlyLastFatal([rec] + rest, sim) && EndsEarlyOnDeath([rec] + rest, t, T, sim)
  {
    var tr := [rec] + rest;
    assert forall k :: 1 <= k < |tr| ==> tr[k] == rest[k - 1];
  }

  /**
   * The records of a successful run: at most one per remaining timestep;
   * no step but the last kills, and a run that stops early stops on a death.
   */
  lemma {:induction false} TraceLength(env: Env, T: int, t: nat, x: Vec, d: Vec, ctx: InterventionContext)
    requires Trace(env, T, t, x, d, ctx).Ok?
    ensures var tr := Trace(env, T, t, x, d, ctx).value;
      (tr == [] || t + |tr| <= T) && OnlyLastFatal(tr, env.sim) && EndsEarlyOnDeath(tr, t, T, env.sim)
    decreases T - t
  {
    if t < T {
      var rec := Advance(env, t, x, d, ctx).value;
      TraceUnfold(env, T, t, x, d, ctx, rec);
      if !Dead(rec.step.xNew, env.sim) {
        var ctx' := NextContext(ctx, rec.step);
        var next := Trace(env, T, t + 1, rec.step.xNew, rec.step.dNew, ctx');
        JoinOk([rec], next);
        TraceLength(env, T, t + 1, rec.step.xNew, rec.step.dNew, ctx');
        ConsSurvivor(rec, next.value, t, T, env.sim);
      }
    }
  }

  lemma ConsThreaded(rec: StepRecord, rest: seq<StepRecord>)
    requires Threaded(rest, rec.step.xNew, rec.step.dNew, NextContext(rec.ctx, rec.step))
    ensures Threaded([rec] + rest, rec.x, rec.d, rec.ctx)
  {
    var tr := [rec] + rest;
    assert forall k :: 1 <= k < |tr| ==> tr[k] == rest[k - 1];
  }

  lemma ConsStepFacts(env: Env, t: nat, rec: StepRecord, rest: seq<StepRecord>)
    requires RecordFacts(env, t, rec) && StepFacts(env, t + 1, rest)
    ensures StepFacts(env, t, [rec] + rest)
  {
    var tr := [rec] + rest;
    forall k | 0 <= k < |tr|
      ensures RecordFacts(env, t + k, tr[k])
    {
      if 0 < k {
        assert tr[k] == rest[k - 1] && t + k == (t + 1) + (k - 1);
      }
    }
  }

  /** The records of a successful run are threaded through the states. */
  lemma {:induction false} TraceThreaded(env: Env, T: int, t: nat, x: Vec, d: Vec, ctx: InterventionContext)
    requires Trace(env, T, t, x, d, ctx).Ok?
    ensures Threaded(Trace(env, T, t, x, d, ctx).value, x, d, ctx)
    decreases T - t
  {
    if t < T {
      var rec := Advance(env, t, x, d, ctx).value;
      TraceUnfold(env, T, t, x, d, ctx, rec);
      if !Dead(rec.step.xNew, env.sim) {
        var ctx' := NextContext(ctx, rec.step);
        var next := Trace(env, T, t + 1, rec.step.xNew, rec.step.dNew, ctx');
        JoinOk([rec], next);
        TraceThreaded(env, T, t + 1, rec.step.xNew, rec.step.dNew, ctx');
        ConsThreaded(rec, next.value);
      }
    }
  }

  /** Every record of a successful run holds the facts of its own timestep. */
  lemma {:induction false} TraceFacts(env: Env, T: int, t: nat, x: Vec, d: Vec, ctx: InterventionContext)
    requires Trace(env, T, t, x, d, ctx).Ok?
    ensures StepFacts(env, t, Trace(env, T, t, x, d, ctx).value)
    decreases T - t
  {
    if t < T {
      var rec := Advance(env, t, x, d, ctx).value;
      TraceUnfold(env, T, t, x, d, ctx, rec);
      assert RecordFacts(env, t, rec);
      if !Dead(rec.step.xNew, env.sim) {
        var ctx' := NextContext(ctx, rec.step);
        var next := Trace(env, T, t + 1, rec.step.xNew, rec.step.dNew, ctx');
        JoinOk([rec], next);
        TraceFacts(env, T, t + 1, rec.step.xNew, rec.step.dNew, ctx');
        ConsStepFacts(env, t, rec, next.value);
      } else {
        assert StepFacts(env, t, [rec]);
      }
    }
  }

  /** Once a step applies the organ replacement, every later record's context has it done. */
  lemma {:induction false} OrganDoneLatches(tr: seq<StepRecord>, x: Vec, d: Vec, ctx: InterventionContext, i: nat, j: nat)
    requires Threaded(tr, x, d, ctx) && i < j < |tr| && tr[i].step.replacementApplied
    ensures tr[j].ctx.organDone
    decreases j
  {
    if i < j - 1 {
      OrganDoneLatches(tr, x, d, ctx, i, j - 1);
    }
    assert tr[j].ctx == NextContext(tr[j - 1].ctx, tr[j - 1].step);
  }

  /**
   * In a successful run the organ replacement is applied at most once,
   * never after the context says it is done, and never by a handler other
   * than an organ replacement.
   */
  lemma OrganReplacementAtMostOnce(env: Env, T: int)
    requires FullTrace(env, T).Ok?
    ensures var tr := FullTrace(env, T).value;
      (forall i, j :: 0 <= i < j < |tr| && tr[i].step.replacementApplied ==>
         tr[j].ctx.organDone && !tr[j].step.replacementApplied) &&
      (!env.kind.OrganReplacement? ==> forall k :: 0 <= k < |tr| ==> !tr[k].step.replacementApplied)
  {
    var tr := FullTrace(env, T).value;
    TraceThreaded(env, T, 0, env.sys.x0, env.sys.d0, FreshContext);
    TraceFacts(env, T, 0, env.sys.x0, env.sys.d0, FreshContext);
    forall i, j | 0 <= i < j < |tr| && tr[i].step.replacementApplied
      ensures tr[j].ctx.organDone && !tr[j].step.replacementApplied
    {
      OrganDoneLatches(tr, env.sys.x0, env.sys.d0, FreshContext, i, j);
      assert RecordFacts(env, 0 + j, tr[j]);
    }
    forall k | 0 <= k < |tr|
      ensures tr[k].step.replacementApplied ==> env.kind.OrganReplacement?
    {
      assert RecordFacts(env, 0 + k, tr[k]);
    }
  }

  /**
   * A run from an initial state in bounds, with a replacement state in
   * bounds, keeps every recorded state and every new state in bounds:
   * health in [0, 1] and damage in [0, 1.5].
   */
  lemma RunStaysInBounds(env: Env, T: int)
    requires FullTrace(env, T).Ok?
    requires InBounds(env.sys.x0, env.sys.d0)
    requires InBounds(env.icfg.organReplacementX, env.icfg.organReplacementD)
    ensures var tr := FullTrace(env, T).value;
      forall k :: 0 <= k < |tr| ==> InBounds(tr[k].x, tr[k].d) && InBounds(tr[k].step.xNew, tr[k].step.dNew)
  {
    var tr := FullTrace(env, T).value;
    TraceThreaded(env, T, 0, env.sys.x0, env.sys.d0, FreshContext);
    TraceFacts(env, T, 0, env.sys.x0, env.sys.d0, FreshContext);
    forall k | 0 <= k < |tr|
      ensures InBounds(tr[k].x, tr[k].d) && InBounds(tr[k].step.xNew, tr[k].step.dNew)
    {
      assert RecordFacts(env, 0 + k, tr[k]);
      if 0 < k {
        assert RecordFacts(env, 0 + (k - 1), tr[k - 1]);
      }
    }
  }

  /** Every row of the result of such a run, the death row included, is in bounds. */
  lemma ResultInBounds(env: Env, T: int)
    requires IntegrateSpec(env, T).Ok?
    requires InBounds(env.sys.x0, env.sys.d0)
    requires InBounds(env.icfg.organReplacementX, env.icfg.organReplacementD)
    ensures var res := IntegrateSpec(env, T).value;
      |res.xHist| == |res.dHist| && forall k :: 0 <= k < |res.xHist| ==> InBounds(res.xHist[k], res.dHist[k])
  {
    RunStaysInBounds(env, T);
    SummaryInBounds(FullTrace(env, T).value, env.sim);
  }

  lemma SummaryInBounds(tr: seq<StepRecord>, sim: SimulationConfig)
    requires forall k :: 0 <= k < |tr| ==> InBounds(tr[k].x, tr[k].d) && InBounds(tr[k].step.xNew, tr[k].step.dNew)
    ensures var res := Summarize(tr, sim);
      |res.xHist| == |res.dHist| && forall k :: 0 <= k < |res.xHist| ==> InBounds(res.xHist[k], res.dHist[k])
  {
    var res := Summarize(tr, sim);
    var n := |tr|;
    if n > 0 && Dead(tr[n - 1].step.xNew, sim) {
      assert res.xHist == XsOf(tr[..n - 1]) + [tr[n - 1].step.xNew];
      assert res.dHist == DsOf(tr[..n - 1]) + [tr[n - 1].step.dNew];
      forall k | 0 <= k < n
        ensures InBounds(res.xHist[k], res.dHist[k])
      {
        if k < n - 1 {
          assert res.xHist[k] == tr[k].x && res.dHist[k] == tr[k].d;
        }
      }
    }
  }

  /** A run fails only through an organ replacement whose scenario is not in the table. */
  lemma {:induction false} TraceNeverFails(env: Env, T: int, t: nat, x: Vec, d: Vec, ctx: InterventionContext)
    requires !env.kind.OrganReplacement? || env.kind.scenario in env.icfg.organScenarios
    ensures Trace(env, T, t, x, d, ctx).Ok?
    decreases T - t
  {
    if t < T {
      var rec := Advance(env, t, x, d, ctx).value;
      TraceUnfold(env, T, t, x, d, ctx, rec);
      if !Dead(rec.step.xNew, env.sim) {
        TraceNeverFails(env, T, t + 1, rec.step.xNew, rec.step.dNew, NextContext(ctx, rec.step));
      }
    }
  }

  /** A run's only error is the KeyError of an organ replacement whose scenario is missing. */
  lemma {:induction false} TraceErrorIsMissingScenario(env: Env, T: int, t: nat, x: Vec, d: Vec,
                                                       ctx: InterventionContext)
    requires Trace(env, T, t, x, d, ctx).Err?
    ensures env.kind.OrganReplacement? && env.kind.scenario !in env.icfg.organScenarios
    ensures Trace(env, T, t, x, d, ctx).error == KeyError(env.kind.scenario)
    decreases T - t
  {
    if t < T && Advance(env, t, x, d, ctx).Ok? {
      var rec := Advance(env, t, x, d, ctx).value;
      TraceUnfold(env, T, t, x, d, ctx, rec);
      if !Dead(rec.step.xNew, env.sim) {
        TraceErrorIsMissingScenario(env, T, t + 1, rec.step.xNew, rec.step.dNew, NextContext(ctx, rec.step));
      }
    }
  }

  /**
   * The rows of a run's result: one per timestep taken, at the ages of the
   * time grid; all timesteps when nobody died; a lifespan and a cause
   * exactly together, the lifespan the last age and the cause a subsystem
   * below the death threshold in the last row.
   */
  ghost predicate RowsShape(res: SimulationResult, env: Env, T: int) {
    var n := |res.age|;
    |res.xHist| == n && |res.dHist| == n && n <= (if T < 0 then 0 else T) &&
    (forall k :: 0 <= k < n ==> res.age[k] == Age(env.sim, k)) &&
    (res.lifespan.None? <==> res.causeOfDeath.None?) &&
    (res.lifespan.None? ==> n == (if T < 0 then 0 else T)) &&
    (res.lifespan.Some? ==>
       0 < n && res.lifespan.value == res.age[n - 1] && Dead(res.xHist[n - 1], env.sim) &&
       res.xHist[n - 1][res.causeOfDeath.value] < env.sim.deathThreshold)
  }

  /**
   * The states of a run's result: the first row is the initial state unless
   * a death at the first step overwrote it, and no row after the first is
   * below the death threshold except a last row overwritten by a death.
   */
  ghost predicate StatesShape(res: SimulationResult, env: Env) {
    var n := |res.age|;
    |res.xHist| == n && |res.dHist| == n &&
    (0 < n && (res.lifespan.None? || 1 < n) ==> res.xHist[0] == env.sys.x0 && res.dHist[0] == env.sys.d0) &&
    (forall k :: 0 < k < n && (res.lifespan.None? || k < n - 1) ==> !Dead(res.xHist[k], env.sim))
  }

  /** The healthspan of a run's result, if any, is one of its recorded ages. */
  ghost predicate HealthspanShape(res: SimulationResult) {
    res.healthspan.Some? ==> exists k :: 0 <= k < |res.age| && res.healthspan.value == res.age[k]
  }

  /** The requirements on the records of a run that `SummaryRows` and `SummaryStates` rely on. */
  ghost predicate RunRecords(env: Env, T: int, tr: seq<StepRecord>) {
    (tr == [] || |tr| <= T) && OnlyLastFatal(tr, env.sim) && EndsEarlyOnDeath(tr, 0, T, env.sim) &&
    Threaded(tr, env.sys.x0, env.sys.d0, FreshContext) && StepFacts(env, 0, tr)
  }

  lemma SummaryRows(env: Env, T: int, tr: seq<StepRecord>)
    requires RunRecords(env, T, tr)
    ensures RowsShape(Summarize(tr, env.sim), env, T)
  {
    var res := Summarize(tr, env.sim);
    forall k | 0 <= k < |tr|
      ensures res.age[k] == Age(env.sim, k)
    {
      assert RecordFacts(env, 0 + k, tr[k]);
    }
  }

  lemma SummaryStates(env: Env, T: int, tr: seq<StepRecord>)
    requires RunRecords(env, T, tr)
    ensures StatesShape(Summarize(tr, env.sim), env)
  {
    var res := Summarize(tr, env.sim);
    var n := |tr|;
    if n > 0 && Dead(tr[n - 1].step.xNew, env.sim) {
      assert res.xHist == XsOf(tr[..n - 1]) + [tr[n - 1].step.xNew];
      assert res.dHist == DsOf(tr[..n - 1]) + [tr[n - 1].step.dNew];
      forall k | 0 < k < n - 1
        ensures !Dead(res.xHist[k], env.sim)
      {
        assert res.xHist[k] == tr[k].x == tr[k - 1].step.xNew;
      }
    } else {
      forall k | 0 < k < n
        ensures !Dead(res.xHist[k], env.sim)
      {
        assert res.xHist[k] == tr[k].x == tr[k - 1].step.xNew;
      }
    }
  }

  lemma SummaryHealthspan(tr: seq<StepRecord>, sim: SimulationConfig)
    ensures HealthspanShape(Summarize(tr, sim))
  {
    var res := Summarize(tr, sim);
    if res.healthspan.Some? {
      var i := FirstCrossing(tr, sim.funcThreshold).value;
      assert res.healthspan.value == res.age[i];
    }
  }

  /** The result of every successful run has the shape of `RowsShape`, `StatesShape` and `HealthspanShape`. */
  lemma RunResultShape(env: Env, T: int)
    requires IntegrateSpec(env, T).Ok?
    ensures RowsShape(IntegrateSpec(env, T).value, env, T)
    ensures StatesShape(IntegrateSpec(env, T).value, env)
    ensures HealthspanShape(IntegrateSpec(env, T).value)
  {
    var tr := FullTrace(env, T).value;
    TraceLength(env, T, 0, env.sys.x0, env.sys.d0, FreshContext);
    TraceThreaded(env, T, 0, env.sys.x0, env.sys.d0, FreshContext);
    TraceFacts(env, T, 0, env.sys.x0, env.sys.d0, FreshContext);
    assert RunRecords(env, T, tr);
    SummaryRows(env, T, tr);
    SummaryStates(env, T, tr);
    SummaryHealthspan(tr, env.sim);
  }

  lemma AgesOrdered(res: SimulationResult, env: Env, T: int)
    requires RowsShape(res, env, T) && HealthspanShape(res) && 0.0 <= env.sim.dt
    ensures res.healthspan.Some? && res.lifespan.Some? ==> res.healthspan.value <= res.lifespan.value
  {
    if res.healthspan.Some? && res.lifespan.Some? {
      var n := |res.age|;
      var k :| 0 <= k < n && res.healthspan.value == res.age[k];
      assert res.age[k] == Age(env.sim, k) && res.lifespan.value == Age(env.sim, n - 1);
      AgeMonotone(env.sim, k, n - 1);
    }
  }

  /** With a non-negative time step, a run's healthspan is never later than its lifespan. */
  lemma HealthspanBeforeLifespan(env: Env, T: int)
    requires IntegrateSpec(env, T).Ok? && 0.0 <= env.sim.dt
    ensures var res := IntegrateSpec(env, T).value;
      res.healthspan.Some? && res.lifespan.Some? ==> res.healthspan.value <= res.lifespan.value
  {
    RunResultShape(env, T);
    AgesOrdered(IntegrateSpec(env, T).value, env, T);
  }

  /** An unknown intervention name raises ValueError, whatever the configuration, before any step. */
  lemma UnknownInterventionFails(intervention: string, simCfg: Option<SimulationConfig>,
                                 sysCfg: Option<SystemConfig>, icfgOpt: Option<InterventionConfig>,
                                 draws: nat -> StepDraws, expNeg: real -> real)
    requires intervention !in Registry
    ensures RunSpec(intervention, simCfg, sysCfg, icfgOpt, draws, expNeg) == Err(ValueError(intervention))
  {
  }

  /** A known intervention with a zero time step raises ZeroDivisionError. */
  lemma ZeroStepFails(intervention: string, simCfg: Option<SimulationConfig>, sysCfg: Option<SystemConfig>,
                      icfgOpt: Option<InterventionConfig>, draws: nat -> StepDraws, expNeg: real -> real)
    requires intervention in Registry && simCfg.GetOr(DefaultSimulationConfig()).dt == 0.0
    ensures RunSpec(intervention, simCfg, sysCfg, icfgOpt, draws, expNeg) == Err(ZeroDivisionError)
  {
  }

  /**
   * Every registered intervention runs without error under the default
   * intervention configuration and a non-zero time step.
   */
  lemma DefaultInterventionsNeverFail(intervention: string, simCfg: Option<SimulationConfig>,
                                      sysCfg: Option<SystemConfig>, draws: nat -> StepDraws,
                                      expNeg: real -> real)
    requires intervention in Registry && simCfg.GetOr(DefaultSimulationConfig()).dt != 0.0
    ensures RunSpec(intervention, simCfg, sysCfg, None, draws, expNeg).Ok?
  {
    var sim := simCfg.GetOr(DefaultSimulationConfig());
    var sys := sysCfg.GetOr(DefaultSystemConfig());
    var env := Env(Registry[intervention], sim, sys, DefaultInterventionConfig(), draws, expNeg);
    RegistryCoversDefaultScenarios();
    var T := Timesteps(sim).value;
    TraceNeverFails(env, T, 0, sys.x0, sys.d0, FreshContext);
  }
}
