/**
 * Configuration records of the aging network and their default values:
 * the time grid and thresholds of a run, the parameters of the three
 * coupled subsystems, and the parameters of each intervention.
 */
module Config {
  import opened Wrappers
  import opened Vectors

  /** Time grid and threshold settings for one run. */
  datatype SimulationConfig = SimulationConfig(
    startAge: real,
    years: real,
    dt: real,
    funcThreshold: real,
    deathThreshold: real,
    noiseStd: real)

  /** Baseline parameters of the coupled subsystems. */
  datatype SystemConfig = SystemConfig(
    x0: Vec,
    d0: Vec,
    baseDecay: Vec,
    betaDecay: Vec,
    baseRecovery: Vec,
    gammaRecovery: Vec,
    kCeiling: Vec,
    cBase: Mat,
    gammaCoupling: real,
    shockProbBase: Vec,
    shockMeanBase: Vec,
    shockStdBase: Vec,
    alphaDamageFromLowXBase: real,
    betaDamageFromShock: real)

  /** Timing and strength of each intervention. */
  datatype InterventionConfig = InterventionConfig(
    exerciseStartAge: real,
    exerciseRecoveryGain: real,
    exerciseDamageReduction: real,
    drugStartAge: real,
    drugShockFactor: real,
    organReplacementAge: real,
    organScenarios: map<string, seq<Node>>,
    organReplacementD: Vec,
    organReplacementX: Vec,
    parabiosisStartAge: real,
    parabiosisDuration: real,
    parabiosisStrengthK: real,
    parabiosisRecoveryGain: real,
    parabiosisDecayReduction: real,
    parabiosisAlphaReduction: real,
    parabiosisShockDamageReduction: real)

  /** Python's `int(q)` on a float: truncation toward zero. */
  function Trunc(q: real): (r: int)
    ensures 0.0 <= q ==> 0 <= r && r as real <= q < r as real + 1.0
    ensures q < 0.0 ==> r <= 0 && r as real - 1.0 < q <= r as real
  {
    if q >= 0.0 then q.Floor else -((-q).Floor)
  }

  /** `timesteps = int(years / dt)`; a zero `dt` raises ZeroDivisionError. */
  function Timesteps(sim: SimulationConfig): (r: Result<int>)
    ensures r.Err? <==> sim.dt == 0.0
    ensures r.Err? ==> r.error == ZeroDivisionError
  {
    if sim.dt == 0.0 then Err(ZeroDivisionError) else Ok(Trunc(sim.years / sim.dt))
  }

  /** For a non-negative horizon and a positive step, `timesteps` is the
      number of whole steps of length `dt` that fit into `years`. */
  lemma TimestepsFitHorizon(sim: SimulationConfig)
    requires 0.0 <= sim.years && 0.0 < sim.dt
    ensures Timesteps(sim).Ok?
    ensures var t := Timesteps(sim).value;
      0 <= t && t as real * sim.dt <= sim.years < (t + 1) as real * sim.dt
  {
    var q := sim.years / sim.dt;
    var t := Trunc(q);
    assert q * sim.dt == sim.years;
    assert t as real <= q < t as real + 1.0;
    MulMonotone(t as real, q, sim.dt);
    MulStrict(q, t as real + 1.0, sim.dt);
    assert Timesteps(sim) == Ok(t);
    assert (t + 1) as real == t as real + 1.0;
    assert sim.years < (t + 1) as real * sim.dt;
  }

  lemma MulMonotone(a: real, b: real, c: real)
    requires a <= b && 0.0 < c
    ensures a * c <= b * c
  {
  }

  lemma MulStrict(a: real, b: real, c: real)
    requires a < b && 0.0 < c
    ensures a * c < b * c
  {
  }

  function DefaultSimulationConfig(): (sim: SimulationConfig)
    ensures 0.0 < sim.deathThreshold < sim.funcThreshold < 1.0
    ensures 0.0 < sim.dt && 0.0 < sim.years && 0.0 <= sim.noiseStd
    ensures Timesteps(sim) == Ok(900)
  {
    SimulationConfig(30.0, 90.0, 0.1, 0.60, 0.25, 0.005)
  }

  function DefaultSystemConfig(): (sys: SystemConfig)
    ensures InBounds(sys.x0, sys.d0)
    ensures ZeroDiagonal(sys.cBase) && Symmetric(sys.cBase) && NonNegativeMat(sys.cBase)
    ensures NonNegative(sys.baseDecay) && NonNegative(sys.betaDecay)
    ensures NonNegative(sys.baseRecovery) && NonNegative(sys.gammaRecovery) && NonNegative(sys.kCeiling)
    ensures NonNegative(sys.shockProbBase) && NonNegative(sys.shockMeanBase) && NonNegative(sys.shockStdBase)
    ensures 0.0 <= sys.gammaCoupling && 0.0 <= sys.alphaDamageFromLowXBase && 0.0 <= sys.betaDamageFromShock
  {
    SystemConfig(
      x0 := [0.9, 0.9, 0.9],
      d0 := [0.1, 0.1, 0.1],
      baseDecay := [0.020, 0.020, 0.020],
      betaDecay := [1.5, 1.5, 1.5],
      baseRecovery := [0.30, 0.25, 0.20],
      gammaRecovery := [1.0, 1.0, 1.0],
      kCeiling := [0.6, 0.6, 0.6],
      cBase := [[0.0, 0.10, 0.10], [0.10, 0.0, 0.10], [0.10, 0.10, 0.0]],
      gammaCoupling := 1.0,
      shockProbBase := [0.018, 0.018, 0.018],
      shockMeanBase := [0.04, 0.04, 0.04],
      shockStdBase := [0.015, 0.015, 0.015],
      alphaDamageFromLowXBase := 0.03,
      betaDamageFromShock := 0.4)
  }

  /** The set of subsystems an index array names. */
  function Members(nodes: seq<Node>): set<Node> {
    set k | 0 <= k < |nodes| :: nodes[k]
  }

  /** The organ replacement scenarios: cardio; cardio and musculoskeletal; all three. */
  function DefaultOrganScenarios(): (m: map<string, seq<Node>>)
    ensures m.Keys == {"organ1", "organ2", "organ3"}
    ensures Members(m["organ1"]) == {0}
    ensures Members(m["organ2"]) == {0, 1}
    ensures Members(m["organ3"]) == {0, 1, 2}
  {
    var m := map["organ1" := [0], "organ2" := [0, 1], "organ3" := [0, 1, 2]];
    assert Members(m["organ1"]) == {0} by {
      assert m["organ1"][0] == 0;
    }
    assert Members(m["organ2"]) == {0, 1} by {
      assert m["organ2"][0] == 0 && m["organ2"][1] == 1;
    }
    assert Members(m["organ3"]) == {0, 1, 2} by {
      assert m["organ3"][0] == 0 && m["organ3"][1] == 1 && m["organ3"][2] == 2;
    }
    m
  }

  function DefaultInterventionConfig(): (cfg: InterventionConfig)
    ensures cfg.exerciseStartAge == 45.0
    ensures cfg.organScenarios == DefaultOrganScenarios()
    ensures InBounds(cfg.organReplacementX, cfg.organReplacementD)
    ensures cfg.organReplacementX == [0.90, 0.90, 0.85] && cfg.organReplacementD == [0.15, 0.15, 0.25]
    ensures 0.0 <= cfg.parabiosisStrengthK && 0.0 <= cfg.parabiosisRecoveryGain
  {
    InterventionConfig(
      exerciseStartAge := 45.0,
      exerciseRecoveryGain := 0.3,
      exerciseDamageReduction := 0.3,
      drugStartAge := 60.0,
      drugShockFactor := 0.4,
      organReplacementAge := 65.0,
      organScenarios := DefaultOrganScenarios(),
      organReplacementD := [0.15, 0.15, 0.25],
      organReplacementX := [0.90, 0.90, 0.85],
      parabiosisStartAge := 55.0,
      parabiosisDuration := 8.0,
      parabiosisStrengthK := 0.6,
      parabiosisRecoveryGain := 0.40,
      parabiosisDecayReduction := 0.20,
      parabiosisAlphaReduction := 0.40,
      parabiosisShockDamageReduction := 0.30)
  }

  /** The names simulated by default, in order. */
  const DefaultScenarios: seq<string> :=
    ["none", "exercise", "drug", "organ1", "organ2", "organ3", "parabiosis"]

  /** Organ scenario nesting: each scenario replaces a superset of the previous one. */
  lemma OrganScenariosNested()
    ensures var m := DefaultOrganScenarios();
      Members(m["organ1"]) < Members(m["organ2"]) < Members(m["organ3"])
    ensures forall s :: s in DefaultOrganScenarios() ==> Members(DefaultOrganScenarios()[s]) <= {0, 1, 2}
  {
  }
}
