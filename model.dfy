/**
 * The per-timestep dynamics of the aging network: damage-dependent
 * decay, recovery, health ceiling and coupling; stochastic shocks and
 * their propagation; the health and damage updates; and the optional
 * hard reset of a set of subsystems requested by an intervention.
 */
module Model {
  import opened Wrappers
  import opened Vectors
  import opened Config

  /** One subsystem's decay rate `base * (1 + beta * dc)`, for clipped damage `dc`. */
  function DecayRate(base: real, beta: real, dc: real): (r: real)
    ensures 0.0 <= base && 0.0 <= beta && 0.0 <= dc <= 1.0 ==> base <= r <= base * (1.0 + beta)
  {
    if 0.0 <= base && 0.0 <= beta && 0.0 <= dc <= 1.0 then
      Stretch(base, beta, dc);
      base * (1.0 + beta * dc)
    else
      base * (1.0 + beta * dc)
  }

  /** One subsystem's recovery rate `base * (1 - gamma * dc)`. */
  function RecoveryRate(base: real, gamma: real, dc: real): (r: real)
    ensures 0.0 <= base && 0.0 <= gamma && 0.0 <= dc <= 1.0 ==> base * (1.0 - gamma) <= r <= base
  {
    if 0.0 <= base && 0.0 <= gamma && 0.0 <= dc <= 1.0 then
      Stretch(base, -gamma, dc);
      assert 1.0 - gamma * dc == 1.0 + (-gamma) * dc;
      base * (1.0 - gamma * dc)
    else
      base * (1.0 - gamma * dc)
  }

  /** One subsystem's health ceiling `1 - k * dc`. */
  function Ceiling(k: real, dc: real): (r: real)
    ensures 0.0 <= k && 0.0 <= dc <= 1.0 ==> 1.0 - k <= r <= 1.0
  {
    if 0.0 <= k && 0.0 <= dc <= 1.0 then
      assert k * dc <= k * 1.0;
      1.0 - k * dc
    else
      1.0 - k * dc
  }

  /** `base * (1 + s * c)` lies between `base` and `base * (1 + s)` for `c` in [0, 1]. */
  lemma Stretch(base: real, s: real, c: real)
    requires 0.0 <= base && 0.0 <= c <= 1.0
    ensures 0.0 <= s ==> base <= base * (1.0 + s * c) <= base * (1.0 + s)
    ensures s <= 0.0 ==> base * (1.0 + s) <= base * (1.0 + s * c) <= base
  {
    assert base * (1.0 + s * c) == base + base * s * c;
    assert base * (1.0 + s) == base + base * s;
    if 0.0 <= s {
      assert 0.0 <= base * s;
      assert base * s * c <= base * s;
    } else {
      assert base * s <= 0.0;
      assert base * s <= base * s * c;
    }
  }

  /** Damage-dependent decay rates: damage accelerates decay, at most by the factor `1 + beta`. */
  function EffectiveDecay(d: Vec, sys: SystemConfig): (r: Vec)
    ensures NonNegative(sys.baseDecay) && NonNegative(sys.betaDecay) ==>
      forall i: Node :: sys.baseDecay[i] <= r[i] <= sys.baseDecay[i] * (1.0 + sys.betaDecay[i])
  {
    seq(N, i requires 0 <= i < N => DecayRate(sys.baseDecay[i], sys.betaDecay[i], Clip(d[i], 0.0, 1.0)))
  }

  /** Recovery rates, slowed by accumulated damage (below zero when `gamma > 1`). */
  function EffectiveRecovery(d: Vec, sys: SystemConfig): (r: Vec)
    ensures NonNegative(sys.baseRecovery) && NonNegative(sys.gammaRecovery) ==>
      forall i: Node :: sys.baseRecovery[i] * (1.0 - sys.gammaRecovery[i]) <= r[i] <= sys.baseRecovery[i]
  {
    seq(N, i requires 0 <= i < N => RecoveryRate(sys.baseRecovery[i], sys.gammaRecovery[i], Clip(d[i], 0.0, 1.0)))
  }

  /** Damage-limited ceiling for functional health. */
  function MaxHealth(d: Vec, sys: SystemConfig): (r: Vec)
    ensures NonNegative(sys.kCeiling) ==> forall i: Node :: 1.0 - sys.kCeiling[i] <= r[i] <= 1.0
  {
    seq(N, i requires 0 <= i < N => Ceiling(sys.kCeiling[i], Clip(d[i], 0.0, 1.0)))
  }

  /** Shock propagation matrix, amplified by the mean damage of each pair. */
  function CouplingMatrix(d: Vec, sys: SystemConfig): (r: Mat)
    ensures forall i: Node :: sys.cBase[i][i] == 0.0 ==> r[i][i] == 0.0
    ensures Symmetric(sys.cBase) ==> Symmetric(r)
    ensures NonNegativeMat(sys.cBase) && 0.0 <= sys.gammaCoupling ==> NonNegativeMat(r)
  {
    var dc := ClipVec(d, 0.0, 1.0);
    seq(N, i requires 0 <= i < N =>
      seq(N, j requires 0 <= j < N => Coupling(sys.cBase[i][j], sys.gammaCoupling, (dc[j] + dc[i]) / 2.0)))
  }

  /** One coupling entry `c * (1 + gamma * m)`, amplified by the pair's mean clipped damage `m`. */
  function Coupling(c: real, gamma: real, m: real): (r: real)
    ensures c == 0.0 ==> r == 0.0
    ensures 0.0 <= c && 0.0 <= gamma && 0.0 <= m ==> 0.0 <= r
  {
    if 0.0 <= c && 0.0 <= gamma && 0.0 <= m then
      NonNegProduct(gamma, m, 1.0);
      NonNegProduct(c, 1.0 + gamma * m, 1.0);
      c * (1.0 + gamma * m)
    else
      c * (1.0 + gamma * m)
  }

  /** The four derived quantities see damage only through `clip(D, 0, 1)`. */
  lemma DerivedQuantitiesSeeClippedDamage(d1: Vec, d2: Vec, sys: SystemConfig)
    requires forall i: Node :: Clip(d1[i], 0.0, 1.0) == Clip(d2[i], 0.0, 1.0)
    ensures EffectiveDecay(d1, sys) == EffectiveDecay(d2, sys)
    ensures EffectiveRecovery(d1, sys) == EffectiveRecovery(d2, sys)
    ensures MaxHealth(d1, sys) == MaxHealth(d2, sys)
    ensures CouplingMatrix(d1, sys) == CouplingMatrix(d2, sys)
  {
    assert ClipVec(d1, 0.0, 1.0) == ClipVec(d2, 0.0, 1.0);
    assert forall i: Node :: EffectiveDecay(d1, sys)[i] == EffectiveDecay(d2, sys)[i];
    assert forall i: Node :: EffectiveRecovery(d1, sys)[i] == EffectiveRecovery(d2, sys)[i];
    assert forall i: Node :: MaxHealth(d1, sys)[i] == MaxHealth(d2, sys)[i];
  }

  /** Damage of 1 or more saturates: it acts exactly like damage 1. */
  lemma DamageSaturatesAtOne(d: Vec, sys: SystemConfig)
    requires forall i: Node :: 1.0 <= d[i]
    ensures EffectiveDecay(d, sys) == EffectiveDecay([1.0, 1.0, 1.0], sys)
    ensures EffectiveRecovery(d, sys) == EffectiveRecovery([1.0, 1.0, 1.0], sys)
    ensures MaxHealth(d, sys) == MaxHealth([1.0, 1.0, 1.0], sys)
    ensures CouplingMatrix(d, sys) == CouplingMatrix([1.0, 1.0, 1.0], sys)
  {
    DerivedQuantitiesSeeClippedDamage(d, [1.0, 1.0, 1.0], sys);
  }

  /** Damage accrued from low function: `alpha * (1 - clip(x, 0, 1)) * dt`. */
  function LowHealthDamage(alpha: real, x: real, dt: real): (r: real)
    ensures 0.0 <= alpha && 0.0 <= dt ==> 0.0 <= r
  {
    if 0.0 <= alpha && 0.0 <= dt then
      NonNegProduct(alpha, 1.0 - Clip(x, 0.0, 1.0), dt);
      alpha * (1.0 - Clip(x, 0.0, 1.0)) * dt
    else
      alpha * (1.0 - Clip(x, 0.0, 1.0)) * dt
  }

  /** Damage accrued from shocks: `beta * (shock * scale) * dt`. */
  function ShockDamage(beta: real, shock: real, scale: real, dt: real): (r: real)
    ensures 0.0 <= beta && 0.0 <= shock && 0.0 <= scale && 0.0 <= dt ==> 0.0 <= r
  {
    if 0.0 <= beta && 0.0 <= shock && 0.0 <= scale && 0.0 <= dt then
      NonNegProduct(shock, scale, 1.0);
      NonNegProduct(beta, shock * scale, dt);
      beta * (shock * scale) * dt
    else
      beta * (shock * scale) * dt
  }

  lemma NonNegProduct(a: real, b: real, c: real)
    requires 0.0 <= a && 0.0 <= b && 0.0 <= c
    ensures 0.0 <= a * b * c && 0.0 <= a * (b * c)
  {
    assert 0.0 <= a * b;
    assert 0.0 <= b * c;
  }

  /**
   * Slow structural damage update driven by low function and by shocks,
   * clipped to [0, 1.5]; with non-negative coefficients and shocks, damage
   * inside its bounds never decreases.
   */
  function UpdateStructuralDamage(d: Vec, x: Vec, totalShock: Vec, alpha: real, beta: real, dt: real,
                                  shockDamageScale: real): (r: Vec)
    ensures forall i: Node :: 0.0 <= r[i] <= 1.5
    ensures 0.0 <= alpha && 0.0 <= beta && 0.0 <= dt && 0.0 <= shockDamageScale && NonNegative(totalShock) ==>
      forall i: Node :: 0.0 <= d[i] <= 1.5 ==> d[i] <= r[i]
  {
    seq(N, i requires 0 <= i < N =>
      Clip(d[i] + LowHealthDamage(alpha, x[i], dt) + ShockDamage(beta, totalShock[i], shockDamageScale, dt), 0.0, 1.5))
  }

  /** Per-step intervention modifiers; `DefaultAdjustment()` changes nothing. */
  datatype StepAdjustment = StepAdjustment(
    decayScale: real,
    recoveryScale: real,
    alphaDamageScale: real,
    shockProb: Option<Vec>,
    shockMean: Option<Vec>,
    shockDamageScale: real,
    replaceNodes: Option<seq<Node>>,
    replacementX: Option<Vec>,
    replacementD: Option<Vec>)

  /** `StepAdjustment()`: all scales 1.0 and no overrides. */
  function DefaultAdjustment(): StepAdjustment {
    StepAdjustment(1.0, 1.0, 1.0, None, None, 1.0, None, None, None)
  }

  /** State after one integration step. */
  datatype StepResult = StepResult(xNew: Vec, dNew: Vec, totalShock: Vec, replacementApplied: bool)

  /**
   * The random numbers one step consumes: the uniform draw that decides
   * each shock hit, the standard-normal draw behind each shock magnitude
   * (magnitude = mean + std * z), the standard-normal observation noise
   * (noise = noise_std * z), and the uniform draw behind the weighted
   * cause-of-death choice.
   */
  datatype StepDraws = StepDraws(uniform: UnitVec, shockNormal: Vec, noise: Vec, choice: Unit)

  /** NumPy's `normal(loc, scale)` as a function of its standard-normal draw `z`. */
  function Normal(loc: real, scale: real, z: real): real {
    loc + scale * z
  }

  /** Local shocks: a hit when the uniform draw is below the probability,
      its normal magnitude floored at zero, and zero without a hit. */
  function LocalShock(prob: Vec, mean: Vec, std: Vec, dr: StepDraws): (r: Vec)
    ensures NonNegative(r)
    ensures forall i: Node :: !(dr.uniform[i] < prob[i]) ==> r[i] == 0.0
    ensures forall i: Node :: prob[i] <= 0.0 ==> r[i] == 0.0
    ensures forall i: Node :: dr.uniform[i] < prob[i] ==> r[i] == Max(Normal(mean[i], std[i], dr.shockNormal[i]), 0.0)
  {
    seq(N, i requires 0 <= i < N =>
      if dr.uniform[i] < prob[i] then Max(Normal(mean[i], std[i], dr.shockNormal[i]), 0.0) else 0.0)
  }

  /** Total shock: local shock plus its propagation `C @ local`. */
  function TotalShock(c: Mat, local: Vec): (r: Vec)
    ensures r == Add(local, MatVec(c, local))
    ensures local == Zeros ==> r == Zeros
    ensures NonNegativeMat(c) && NonNegative(local) ==> forall i: Node :: local[i] <= r[i]
  {
    var r := Add(local, MatVec(c, local));
    forall i: Node
      ensures (NonNegativeMat(c) && NonNegative(local) ==> local[i] <= r[i]) && (local == Zeros ==> r[i] == 0.0)
    {
      RowProduct(c[i], local, MatVec(c, local)[i]);
    }
    r
  }

  /** One entry `row . v` of `C @ v`: non-negative for non-negative factors, zero for the zero vector. */
  lemma RowProduct(row: Vec, v: Vec, s: real)
    requires s == row[0] * v[0] + row[1] * v[1] + row[2] * v[2]
    ensures (forall j: Node :: 0.0 <= row[j]) && NonNegative(v) ==> 0.0 <= s
    ensures v == Zeros ==> s == 0.0
  {
    if (forall j: Node :: 0.0 <= row[j]) && NonNegative(v) {
      assert 0.0 <= row[0] * v[0] && 0.0 <= row[1] * v[1] && 0.0 <= row[2] * v[2];
    }
  }

  /** `X + (-dec * X * dt) - total_shock`. */
  function AfterDecayAndShock(x: Vec, dec: Vec, totalShock: Vec, dt: real): Vec {
    seq(N, i requires 0 <= i < N => x[i] + (-dec[i] * x[i] * dt) - totalShock[i])
  }

  /** Recovery toward the ceiling with the recovery rate floored at zero:
      a non-positive rate leaves health unchanged, and a rate with
      `rate * dt <= 1` moves health toward the ceiling without passing it. */
  function Recover(xa: Vec, rec: Vec, xmax: Vec, dt: real): (r: Vec)
    ensures forall i: Node :: rec[i] <= 0.0 ==> r[i] == xa[i]
    ensures forall i: Node :: 0.0 <= dt && Max(rec[i], 0.0) * dt <= 1.0 ==>
      (xa[i] <= xmax[i] ==> xa[i] <= r[i] <= xmax[i]) && (xmax[i] <= xa[i] ==> xmax[i] <= r[i] <= xa[i])
  {
    seq(N, i requires 0 <= i < N => Approach(xa[i], Max(rec[i], 0.0), xmax[i], dt))
  }

  /** One subsystem's recovery `a + k * (b - a) * dt` toward the ceiling `b`. */
  function Approach(a: real, k: real, b: real, dt: real): (r: real)
    ensures k == 0.0 ==> r == a
    ensures 0.0 <= k && 0.0 <= dt && k * dt <= 1.0 ==> (a <= b ==> a <= r <= b) && (b <= a ==> b <= r <= a)
  {
    if 0.0 <= k && 0.0 <= dt && k * dt <= 1.0 then
      Between(a, b, k, dt, a + k * (b - a) * dt);
      a + k * (b - a) * dt
    else
      a + k * (b - a) * dt
  }

  lemma Between(a: real, b: real, k: real, dt: real, r: real)
    requires 0.0 <= k && 0.0 <= dt && k * dt <= 1.0 && r == a + k * (b - a) * dt
    ensures a <= b ==> a <= r <= b
    ensures b <= a ==> b <= r <= a
  {
    var w := k * dt;
    assert 0.0 <= w by {
      NonNegProduct(k, dt, 1.0);
    }
    assert k * (b - a) * dt == w * (b - a);
    if a <= b {
      NonNegProduct(w, b - a, 1.0);
      NonNegProduct(1.0 - w, b - a, 1.0);
      assert (1.0 - w) * (b - a) == (b - a) - w * (b - a);
    } else {
      NonNegProduct(w, a - b, 1.0);
      NonNegProduct(1.0 - w, a - b, 1.0);
      assert (1.0 - w) * (a - b) == (a - b) - w * (a - b);
      assert w * (b - a) == -(w * (a - b));
    }
  }

  /** The total shock of one step: sampled local shocks and their propagation. */
  function StepShock(d: Vec, sys: SystemConfig, adj: StepAdjustment, dr: StepDraws): (r: Vec)
    ensures NonNegativeMat(sys.cBase) && 0.0 <= sys.gammaCoupling ==> NonNegative(r)
  {
    var prob := adj.shockProb.GetOr(sys.shockProbBase);
    var mean := adj.shockMean.GetOr(sys.shockMeanBase);
    var local := LocalShock(prob, mean, sys.shockStdBase, dr);
    TotalShock(CouplingMatrix(d, sys), local)
  }

  /** Health after decay, the shock and recovery toward the ceiling, before noise. */
  function Recovered(x: Vec, d: Vec, sim: SimulationConfig, sys: SystemConfig, adj: StepAdjustment,
                     totalShock: Vec): Vec
  {
    var dec := Scale(EffectiveDecay(d, sys), adj.decayScale);
    var rec := Scale(EffectiveRecovery(d, sys), adj.recoveryScale);
    Recover(AfterDecayAndShock(x, dec, totalShock, sim.dt), rec, MaxHealth(d, sys), sim.dt)
  }

  /** The low-function damage coefficient of a step. */
  function AlphaDamage(sys: SystemConfig, adj: StepAdjustment): real {
    sys.alphaDamageFromLowXBase * adj.alphaDamageScale
  }

  /** The step before any node replacement: health and damage within their bounds. */
  function Dynamics(x: Vec, d: Vec, sim: SimulationConfig, sys: SystemConfig, adj: StepAdjustment,
                    dr: StepDraws): (r: StepResult)
    ensures !r.replacementApplied
    ensures InBounds(r.xNew, r.dNew)
    ensures r.totalShock == StepShock(d, sys, adj, dr)
  {
    var total := StepShock(d, sys, adj, dr);
    var xNew := ClipVec(Add(Recovered(x, d, sim, sys, adj, total), Scale(dr.noise, sim.noiseStd)), 0.0, 1.0);
    var alpha := AlphaDamage(sys, adj);
    var dNew := UpdateStructuralDamage(d, xNew, total, alpha, sys.betaDamageFromShock, sim.dt, adj.shockDamageScale);
    StepResult(xNew, dNew, total, false)
  }

  /** `a[nodes] = repl[nodes]` on a vector value. */
  function Override(v: Vec, nodes: seq<Node>, repl: Vec): (r: Vec)
    ensures forall i: Node :: r[i] == if i in nodes then repl[i] else v[i]
  {
    seq(N, i requires 0 <= i < N => if i in nodes then repl[i] else v[i])
  }

  /** Subsystem `i` has its health reset by this adjustment. */
  predicate ResetsHealth(adj: StepAdjustment, i: Node) {
    adj.replaceNodes.Some? && i in adj.replaceNodes.value && adj.replacementX.Some?
  }

  /** Subsystem `i` has its damage reset by this adjustment. */
  predicate ResetsDamage(adj: StepAdjustment, i: Node) {
    adj.replaceNodes.Some? && i in adj.replaceNodes.value && adj.replacementD.Some?
  }

  /** Replacement values, where given, lie within the state bounds. */
  ghost predicate ReplacementInBounds(adj: StepAdjustment) {
    (adj.replacementX.Some? ==> forall i: Node :: 0.0 <= adj.replacementX.value[i] <= 1.0) &&
    (adj.replacementD.Some? ==> forall i: Node :: 0.0 <= adj.replacementD.value[i] <= 1.5)
  }

  /**
   * One integration step (`step_state`): the replaced subsystems take the
   * replacement values exactly, every other subsystem keeps the computed
   * value, which is clipped to the state bounds; a replacement is reported
   * exactly when the adjustment names a node set.
   */
  function Step(x: Vec, d: Vec, sim: SimulationConfig, sys: SystemConfig, adj: StepAdjustment,
                dr: StepDraws): (r: StepResult)
    ensures r.replacementApplied <==> adj.replaceNodes.Some?
    ensures r.totalShock == Dynamics(x, d, sim, sys, adj, dr).totalShock
    ensures forall i: Node ::
      r.xNew[i] == (if ResetsHealth(adj, i) then adj.replacementX.value[i] else Dynamics(x, d, sim, sys, adj, dr).xNew[i])
    ensures forall i: Node ::
      r.dNew[i] == (if ResetsDamage(adj, i) then adj.replacementD.value[i] else Dynamics(x, d, sim, sys, adj, dr).dNew[i])
    ensures forall i: Node :: !ResetsHealth(adj, i) ==> 0.0 <= r.xNew[i] <= 1.0
    ensures forall i: Node :: !ResetsDamage(adj, i) ==> 0.0 <= r.dNew[i] <= 1.5
    ensures ReplacementInBounds(adj) ==> InBounds(r.xNew, r.dNew)
  {
    Reset(Dynamics(x, d, sim, sys, adj, dr), adj)
  }

  /** The optional hard reset of the adjustment's node set. */
  function Reset(dyn: StepResult, adj: StepAdjustment): (r: StepResult)
    ensures r.replacementApplied == (adj.replaceNodes.Some? || dyn.replacementApplied)
    ensures r.totalShock == dyn.totalShock
    ensures forall i: Node :: r.xNew[i] == (if ResetsHealth(adj, i) then adj.replacementX.value[i] else dyn.xNew[i])
    ensures forall i: Node :: r.dNew[i] == (if ResetsDamage(adj, i) then adj.replacementD.value[i] else dyn.dNew[i])
  {
    match adj.replaceNodes
    case None => dyn
    case Some(nodes) =>
      var dNew := if adj.replacementD.Some? then Override(dyn.dNew, nodes, adj.replacementD.value) else dyn.dNew;
      var xNew := if adj.replacementX.Some? then Override(dyn.xNew, nodes, adj.replacementX.value) else dyn.xNew;
      StepResult(xNew, dNew, dyn.totalShock, true)
  }

  /** With no shock hit and no noise, a step consumes no randomness: any two
      such draws give the same step. */
  lemma StepDeterministicWithoutShocksOrNoise(x: Vec, d: Vec, sim: SimulationConfig, sys: SystemConfig,
                                              adj: StepAdjustment, dr1: StepDraws, dr2: StepDraws)
    requires var prob := adj.shockProb.GetOr(sys.shockProbBase);
      forall i: Node :: prob[i] <= dr1.uniform[i] && prob[i] <= dr2.uniform[i]
    requires sim.noiseStd == 0.0
    ensures Step(x, d, sim, sys, adj, dr1) == Step(x, d, sim, sys, adj, dr2)
  {
    var prob := adj.shockProb.GetOr(sys.shockProbBase);
    var mean := adj.shockMean.GetOr(sys.shockMeanBase);
    assert LocalShock(prob, mean, sys.shockStdBase, dr1) == LocalShock(prob, mean, sys.shockStdBase, dr2);
    assert Scale(dr1.noise, sim.noiseStd) == Scale(dr2.noise, sim.noiseStd);
  }

  /** `a[nodes] = repl[nodes]` in place. */
  method AssignAt(a: array<real>, nodes: seq<Node>, repl: Vec)
    requires a.Length == N
    modifies a
    ensures a[..] == Override(old(a[..]), nodes, repl)
  {
    ghost var before := a[..];
    for k := 0 to |nodes|
      invariant forall i: Node :: a[i] == if i in nodes[..k] then repl[i] else before[i]
    {
      a[nodes[k]] := repl[nodes[k]];
      assert nodes[..k + 1] == nodes[..k] + [nodes[k]];
    }
    assert nodes[..|nodes|] == nodes;
  }

  /**
   * `step_state` as the source computes it: the vectorised quantities as
   * values, the noise added to the health array in place, the damage
   * update on a copy of the damage array, then the reset written into the
   * health and damage arrays by index.
   */
  method StepState(x: Vec, d: Vec, age: real, sim: SimulationConfig, sys: SystemConfig, adj: StepAdjustment,
                   dr: StepDraws) returns (r: StepResult)
    ensures r == Step(x, d, sim, sys, adj, dr)
  {
    var dyn := StepDynamics(x, d, sim, sys, adj, dr);
    r := ApplyReset(dyn, adj);
  }

  /** The part of `step_state` before the reset. */
  method StepDynamics(x: Vec, d: Vec, sim: SimulationConfig, sys: SystemConfig, adj: StepAdjustment,
                      dr: StepDraws) returns (r: StepResult)
    ensures r == Dynamics(x, d, sim, sys, adj, dr)
  {
    var total := StepShock(d, sys, adj, dr);
    var xRecovered := Recovered(x, d, sim, sys, adj, total);
    var xNoisy := AddNoise(xRecovered, dr.noise, sim.noiseStd);
    var xNew := ClipVec(xNoisy, 0.0, 1.0);
    var alpha := AlphaDamage(sys, adj);
    var dNew := DamageUpdate(d, xNew, total, alpha, sys.betaDamageFromShock, sim.dt, adj.shockDamageScale);
    r := StepResult(xNew, dNew, total, false);
  }

  /** `X_new += noise`, the noise being `normal(0, noise_std)`. */
  method AddNoise(xRecovered: Vec, noise: Vec, noiseStd: real) returns (r: Vec)
    ensures r == Add(xRecovered, Scale(noise, noiseStd))
  {
    var xArr := new real[N](i requires 0 <= i < N => xRecovered[i]);
    for i := 0 to N
      invariant forall k :: 0 <= k < i ==> xArr[k] == xRecovered[k] + noise[k] * noiseStd
      invariant forall k :: i <= k < N ==> xArr[k] == xRecovered[k]
    {
      xArr[i] := xArr[i] + noise[i] * noiseStd;
    }
    r := xArr[..];
  }

  /** `update_structural_damage`: copy the damage, add both contributions in place, clip. */
  method DamageUpdate(d: Vec, x: Vec, totalShock: Vec, alpha: real, beta: real, dt: real,
                      shockDamageScale: real) returns (r: Vec)
    ensures r == UpdateStructuralDamage(d, x, totalShock, alpha, beta, dt, shockDamageScale)
  {
    var dArr := new real[N](i requires 0 <= i < N => d[i]);
    for i := 0 to N
      invariant forall k :: 0 <= k < i ==> dArr[k] == d[k] + LowHealthDamage(alpha, x[k], dt)
      invariant forall k :: i <= k < N ==> dArr[k] == d[k]
    {
      dArr[i] := dArr[i] + LowHealthDamage(alpha, x[i], dt);
    }
    for i := 0 to N
      invariant forall k :: 0 <= k < i ==>
        dArr[k] == d[k] + LowHealthDamage(alpha, x[k], dt) + ShockDamage(beta, totalShock[k], shockDamageScale, dt)
      invariant forall k :: i <= k < N ==> dArr[k] == d[k] + LowHealthDamage(alpha, x[k], dt)
    {
      dArr[i] := dArr[i] + ShockDamage(beta, totalShock[i], shockDamageScale, dt);
    }
    r := ClipVec(dArr[..], 0.0, 1.5);
  }

  /** The reset of `step_state`, written by index into fresh arrays. */
  method ApplyReset(dyn: StepResult, adj: StepAdjustment) returns (r: StepResult)
    ensures r == Reset(dyn, adj)
  {
    var applied := dyn.replacementApplied;
    var xOut := new real[N](i requires 0 <= i < N => dyn.xNew[i]);
    var dOut := new real[N](i requires 0 <= i < N => dyn.dNew[i]);
    assert xOut[..] == dyn.xNew && dOut[..] == dyn.dNew;
    if adj.replaceNodes.Some? {
      var nodes := adj.replaceNodes.value;
      if adj.replacementD.Some? {
        AssignAt(dOut, nodes, adj.replacementD.value);
      }
      if adj.replacementX.Some? {
        AssignAt(xOut, nodes, adj.replacementX.value);
      }
      applied := true;
    }
    r := StepResult(xOut[..], dOut[..], dyn.totalShock, applied);
  }
}
