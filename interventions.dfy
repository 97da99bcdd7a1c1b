/**
 * The interventions of the aging network: each handler maps the current
 * age, the configurations and the run's one-off context to the step
 * adjustment of that timestep, and a name table selects a handler.
 */
module Interventions {
  import opened Wrappers
  import opened Vectors
  import opened Config
  import opened Model

  /** The one-off events of a run: whether the organ replacement has happened. */
  datatype InterventionContext = InterventionContext(organDone: bool)

  /** A fresh context, as each run starts with. */
  const FreshContext: InterventionContext := InterventionContext(false)

  /** The handler kinds; an organ replacement handler is bound to its scenario name. */
  datatype Intervention = NoIntervention | Exercise | Drug | OrganReplacement(scenario: string) | Parabiosis

  /**
   * `exp(-x)` is a parameter of the model: any function that is 1 at 0,
   * positive, and non-increasing.
   */
  ghost predicate IsExpNeg(e: real -> real) {
    e(0.0) == 1.0 && forall x: real, y: real :: x <= y ==> 0.0 < e(y) <= e(x)
  }

  /** An adjustment that changes nothing: every scale 1 and no override. */
  predicate Neutral(adj: StepAdjustment) {
    adj.decayScale == 1.0 && adj.recoveryScale == 1.0 && adj.alphaDamageScale == 1.0 &&
    adj.shockProb.None? && adj.shockMean.None? && adj.shockDamageScale == 1.0 &&
    adj.replaceNodes.None? && adj.replacementX.None? && adj.replacementD.None?
  }

  /** `1 + gain * s`. */
  function Boost(gain: real, s: real): real {
    1.0 + gain * s
  }

  /** `1 - reduction * s`. */
  function Reduce(reduction: real, s: real): real {
    1.0 - reduction * s
  }

  /** Baseline: no changes. */
  function ApplyNone(): (adj: StepAdjustment)
    ensures Neutral(adj)
  {
    DefaultAdjustment()
  }

  /**
   * Exercise: neutral before its start age; from then on recovery is
   * boosted by the gain and low-function damage reduced, nothing else.
   */
  function ApplyExercise(age: real, cfg: InterventionConfig): (adj: StepAdjustment)
    ensures age < cfg.exerciseStartAge ==> Neutral(adj)
    ensures cfg.exerciseStartAge <= age ==>
      adj.recoveryScale == 1.0 + cfg.exerciseRecoveryGain &&
      adj.alphaDamageScale == 1.0 - cfg.exerciseDamageReduction &&
      adj.decayScale == 1.0 && adj.shockDamageScale == 1.0 && adj.shockProb.None? && adj.shockMean.None? &&
      adj.replaceNodes.None? && adj.replacementX.None? && adj.replacementD.None?
  {
    if age < cfg.exerciseStartAge then
      DefaultAdjustment()
    else
      DefaultAdjustment().(recoveryScale := 1.0 + cfg.exerciseRecoveryGain,
                           alphaDamageScale := 1.0 - cfg.exerciseDamageReduction)
  }

  /** Drug: neutral before onset; from then on shock probability and mean are the baseline scaled by the factor. */
  function ApplyDrug(age: real, sys: SystemConfig, cfg: InterventionConfig): (adj: StepAdjustment)
    ensures age < cfg.drugStartAge ==> Neutral(adj)
    ensures cfg.drugStartAge <= age ==>
      adj.shockProb == Some(Scale(sys.shockProbBase, cfg.drugShockFactor)) &&
      adj.shockMean == Some(Scale(sys.shockMeanBase, cfg.drugShockFactor)) &&
      adj.decayScale == 1.0 && adj.recoveryScale == 1.0 && adj.alphaDamageScale == 1.0 &&
      adj.shockDamageScale == 1.0 && adj.replaceNodes.None?
  {
    if age < cfg.drugStartAge then
      DefaultAdjustment()
    else
      DefaultAdjustment().(shockProb := Some(Scale(sys.shockProbBase, cfg.drugShockFactor)),
                           shockMean := Some(Scale(sys.shockMeanBase, cfg.drugShockFactor)))
  }

  /** The parabiosis window: from the start age for `duration` years, both ends included. */
  predicate ParabiosisActive(age: real, cfg: InterventionConfig) {
    cfg.parabiosisStartAge <= age && age - cfg.parabiosisStartAge <= cfg.parabiosisDuration
  }

  /** Parabiosis strength `exp(-k * years_on_para)`. */
  function ParabiosisStrength(age: real, cfg: InterventionConfig, expNeg: real -> real): real {
    expNeg(cfg.parabiosisStrengthK * (age - cfg.parabiosisStartAge))
  }

  /**
   * Parabiosis: neutral outside its window; inside it, recovery boosted and
   * decay, low-function damage and shock damage reduced, each in proportion
   * to the decaying strength.
   */
  function ApplyParabiosis(age: real, cfg: InterventionConfig, expNeg: real -> real): (adj: StepAdjustment)
    ensures !ParabiosisActive(age, cfg) ==> Neutral(adj)
    ensures ParabiosisActive(age, cfg) ==>
      var s := ParabiosisStrength(age, cfg, expNeg);
      adj.recoveryScale == Boost(cfg.parabiosisRecoveryGain, s) &&
      adj.decayScale == Reduce(cfg.parabiosisDecayReduction, s) &&
      adj.alphaDamageScale == Reduce(cfg.parabiosisAlphaReduction, s) &&
      adj.shockDamageScale == Reduce(cfg.parabiosisShockDamageReduction, s) &&
      adj.shockProb.None? && adj.shockMean.None? && adj.replaceNodes.None?
  {
    if age < cfg.parabiosisStartAge then
      DefaultAdjustment()
    else if age - cfg.parabiosisStartAge > cfg.parabiosisDuration then
      DefaultAdjustment()
    else
      var s := ParabiosisStrength(age, cfg, expNeg);
      DefaultAdjustment().(recoveryScale := Boost(cfg.parabiosisRecoveryGain, s),
                           decayScale := Reduce(cfg.parabiosisDecayReduction, s),
                           alphaDamageScale := Reduce(cfg.parabiosisAlphaReduction, s),
                           shockDamageScale := Reduce(cfg.parabiosisShockDamageReduction, s))
  }

  /**
   * Organ replacement: neutral once it has happened or before its age;
   * otherwise the scenario's node set is reset to the replacement state,
   * and a scenario missing from the configuration raises KeyError.
   */
  function ApplyOrganReplacement(scenario: string, age: real, cfg: InterventionConfig,
                                 ctx: InterventionContext): (r: Result<StepAdjustment>)
    ensures r.Err? <==> !ctx.organDone && cfg.organReplacementAge <= age && scenario !in cfg.organScenarios
    ensures r.Err? ==> r.error == KeyError(scenario)
    ensures r.Ok? && (ctx.organDone || age < cfg.organReplacementAge) ==> Neutral(r.value)
    ensures r.Ok? && !ctx.organDone && cfg.organReplacementAge <= age ==>
      r.value.replaceNodes == Some(cfg.organScenarios[scenario]) &&
      r.value.replacementX == Some(cfg.organReplacementX) &&
      r.value.replacementD == Some(cfg.organReplacementD) &&
      r.value.decayScale == 1.0 && r.value.recoveryScale == 1.0 && r.value.alphaDamageScale == 1.0 &&
      r.value.shockDamageScale == 1.0 && r.value.shockProb.None? && r.value.shockMean.None?
  {
    if ctx.organDone || age < cfg.organReplacementAge then
      Ok(DefaultAdjustment())
    else if scenario !in cfg.organScenarios then
      Err(KeyError(scenario))
    else
      Ok(DefaultAdjustment().(replaceNodes := Some(cfg.organScenarios[scenario]),
                              replacementX := Some(cfg.organReplacementX),
                              replacementD := Some(cfg.organReplacementD)))
  }

  /**
   * Calls the handler of one intervention. Only an organ replacement can
   * fail or reset nodes, and it does so only while the context says it has
   * not happened yet.
   */
  function Handler(kind: Intervention, age: real, sys: SystemConfig, cfg: InterventionConfig,
                   ctx: InterventionContext, expNeg: real -> real): (r: Result<StepAdjustment>)
    ensures !kind.OrganReplacement? ==> r.Ok? && r.value.replaceNodes.None?
    ensures r.Err? ==> kind.OrganReplacement? && r.error == KeyError(kind.scenario)
    ensures r.Ok? && r.value.replaceNodes.Some? ==> kind.OrganReplacement? && !ctx.organDone
    ensures ctx.organDone && r.Ok? ==> r.value.replaceNodes.None?
    ensures r.Ok? && r.value.replacementX.Some? ==> r.value.replacementX.value == cfg.organReplacementX
    ensures r.Ok? && r.value.replacementD.Some? ==> r.value.replacementD.value == cfg.organReplacementD
  {
    match kind
    case NoIntervention => Ok(ApplyNone())
    case Exercise => Ok(ApplyExercise(age, cfg))
    case Drug => Ok(ApplyDrug(age, sys, cfg))
    case OrganReplacement(scenario) => ApplyOrganReplacement(scenario, age, cfg, ctx)
    case Parabiosis => Ok(ApplyParabiosis(age, cfg, expNeg))
  }

  /** The `INTERVENTIONS` registry: name to handler. */
  const Registry: map<string, Intervention> := map[
    "none" := NoIntervention,
    "exercise" := Exercise,
    "drug" := Drug,
    "organ1" := OrganReplacement("organ1"),
    "organ2" := OrganReplacement("organ2"),
    "organ3" := OrganReplacement("organ3"),
    "parabiosis" := Parabiosis]

  /**
   * The registry holds exactly the default scenario names, and each organ
   * handler looks up the scenario of its own name, which the default
   * organ scenarios provide.
   */
  lemma RegistryCoversDefaultScenarios()
    ensures Registry.Keys == set k | 0 <= k < |DefaultScenarios| :: DefaultScenarios[k]
    ensures forall name :: name in Registry && Registry[name].OrganReplacement? ==>
      Registry[name].scenario == name && name in DefaultOrganScenarios()
  {
    var names := set k | 0 <= k < |DefaultScenarios| :: DefaultScenarios[k];
    assert DefaultScenarios[0] == "none" && DefaultScenarios[1] == "exercise" && DefaultScenarios[2] == "drug";
    assert DefaultScenarios[3] == "organ1" && DefaultScenarios[4] == "organ2";
    assert DefaultScenarios[5] == "organ3" && DefaultScenarios[6] == "parabiosis";
    assert names == {"none", "exercise", "drug", "organ1", "organ2", "organ3", "parabiosis"};
  }

  /** With the default configuration no registered handler raises. */
  lemma DefaultHandlersNeverFail(name: string, age: real, sys: SystemConfig, ctx: InterventionContext,
                                 expNeg: real -> real)
    requires name in Registry
    ensures Handler(Registry[name], age, sys, DefaultInterventionConfig(), ctx, expNeg).Ok?
  {
    RegistryCoversDefaultScenarios();
  }

  /** Exercise and drug, once started, stay on and never change again. */
  lemma OnsetIsPermanent(a1: real, a2: real, sys: SystemConfig, cfg: InterventionConfig)
    requires a1 <= a2
    ensures cfg.exerciseStartAge <= a1 ==> ApplyExercise(a2, cfg) == ApplyExercise(a1, cfg)
    ensures cfg.drugStartAge <= a1 ==> ApplyDrug(a2, sys, cfg) == ApplyDrug(a1, sys, cfg)
    ensures a2 < cfg.exerciseStartAge ==> ApplyExercise(a1, cfg) == ApplyNone()
    ensures a2 < cfg.drugStartAge ==> ApplyDrug(a1, sys, cfg) == ApplyNone()
  {
  }

  /** With factor in [0, 1] the drug never raises a shock probability or mean. */
  lemma DrugNeverWorsensShocks(age: real, sys: SystemConfig, cfg: InterventionConfig)
    requires 0.0 <= cfg.drugShockFactor <= 1.0
    requires NonNegative(sys.shockProbBase) && NonNegative(sys.shockMeanBase)
    ensures var adj := ApplyDrug(age, sys, cfg);
      forall i: Node ::
        0.0 <= adj.shockProb.GetOr(sys.shockProbBase)[i] <= sys.shockProbBase[i] &&
        0.0 <= adj.shockMean.GetOr(sys.shockMeanBase)[i] <= sys.shockMeanBase[i]
  {
    ScaleDown(sys.shockProbBase, cfg.drugShockFactor);
    ScaleDown(sys.shockMeanBase, cfg.drugShockFactor);
  }

  /** Scaling a non-negative vector by a factor in [0, 1] keeps each entry in [0, itself]. */
  lemma ScaleDown(v: Vec, f: real)
    requires NonNegative(v) && 0.0 <= f <= 1.0
    ensures forall i: Node :: 0.0 <= Scale(v, f)[i] <= v[i]
  {
    forall i: Node ensures 0.0 <= Scale(v, f)[i] <= v[i] {
      Shrink(v[i], f, Scale(v, f)[i]);
    }
  }

  lemma Shrink(x: real, f: real, r: real)
    requires 0.0 <= x && 0.0 <= f <= 1.0 && r == x * f
    ensures 0.0 <= r <= x
  {
    assert x * f <= x * 1.0;
  }

  /** At the start of the window parabiosis acts at full strength. */
  lemma ParabiosisFullStrengthAtOnset(cfg: InterventionConfig, expNeg: real -> real)
    requires IsExpNeg(expNeg)
    requires 0.0 <= cfg.parabiosisDuration
    ensures var adj := ApplyParabiosis(cfg.parabiosisStartAge, cfg, expNeg);
      adj.recoveryScale == 1.0 + cfg.parabiosisRecoveryGain &&
      adj.decayScale == 1.0 - cfg.parabiosisDecayReduction &&
      adj.alphaDamageScale == 1.0 - cfg.parabiosisAlphaReduction &&
      adj.shockDamageScale == 1.0 - cfg.parabiosisShockDamageReduction
  {
    assert ParabiosisStrength(cfg.parabiosisStartAge, cfg, expNeg) == 1.0 by {
      assert cfg.parabiosisStrengthK * (cfg.parabiosisStartAge - cfg.parabiosisStartAge) == 0.0;
    }
  }

  /**
   * Within the window, for a non-negative rate `k`, the strength lies in
   * (0, 1] and wanes: the recovery boost of a later age is never above
   * that of an earlier one.
   */
  lemma ParabiosisWanes(a1: real, a2: real, cfg: InterventionConfig, expNeg: real -> real)
    requires IsExpNeg(expNeg)
    requires 0.0 <= cfg.parabiosisStrengthK && 0.0 <= cfg.parabiosisRecoveryGain
    requires ParabiosisActive(a1, cfg) && ParabiosisActive(a2, cfg) && a1 <= a2
    ensures 0.0 < ParabiosisStrength(a2, cfg, expNeg) <= ParabiosisStrength(a1, cfg, expNeg) <= 1.0
    ensures 1.0 <= ApplyParabiosis(a2, cfg, expNeg).recoveryScale <= ApplyParabiosis(a1, cfg, expNeg).recoveryScale
  {
    var k := cfg.parabiosisStrengthK;
    var y1 := a1 - cfg.parabiosisStartAge;
    var y2 := a2 - cfg.parabiosisStartAge;
    MulNonNegMonotone(k, 0.0, y1);
    MulNonNegMonotone(k, y1, y2);
    assert k * 0.0 == 0.0;
    var s1 := ParabiosisStrength(a1, cfg, expNeg);
    var s2 := ParabiosisStrength(a2, cfg, expNeg);
    assert 0.0 < s2 <= s1 <= 1.0;
    MulNonNegMonotone(cfg.parabiosisRecoveryGain, s2, s1);
    MulNonNegMonotone(cfg.parabiosisRecoveryGain, 0.0, s2);
    assert cfg.parabiosisRecoveryGain * 0.0 == 0.0;
  }

  lemma MulNonNegMonotone(k: real, a: real, b: real)
    requires 0.0 <= k && a <= b
    ensures k * a <= k * b
  {
    assert k * b - k * a == k * (b - a);
    assert 0.0 <= k * (b - a);
  }

  /** After the window closes parabiosis is neutral for good. */
  lemma ParabiosisEnds(age: real, cfg: InterventionConfig, expNeg: real -> real)
    requires cfg.parabiosisStartAge + cfg.parabiosisDuration < age
    ensures ApplyParabiosis(age, cfg, expNeg) == ApplyNone()
  {
  }
}
