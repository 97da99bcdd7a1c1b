# Aging network engine, modelled in Dafny

The aging network is a three-subsystem model of aging. The subsystems are
cardiovascular, musculoskeletal and neurological. Each has a functional
health `X` in [0, 1] and a structural damage `D` in [0, 1.5]. One
timestep (`step_state`) does the following, in order:

- computes damage-dependent decay and recovery rates, a health ceiling and
  a coupling matrix;
- samples a local shock for each subsystem and propagates it through the
  coupling matrix;
- decays health, subtracts the shock, recovers toward the ceiling, adds
  noise and clips;
- updates the damage;
- optionally hard-resets a set of subsystems.

An intervention handler supplies a `StepAdjustment` for each step. The
handlers are none, exercise, drug, parabiosis, and three organ
replacements. The organ replacements fire once per run, guarded by a
context flag.

The run loop (`run_sim`) behaves as follows:

- it records the pre-step state at each age `start_age + t * dt`;
- it latches the healthspan at the first step whose mean health falls
  below `func_threshold`;
- it stops at the first step that leaves a subsystem below
  `death_threshold`;
- on a death, it overwrites the last row with the death state and draws a
  cause of death weighted by each subsystem's deficit.

`run_many` collects the healthspans and lifespans of an ensemble of runs.

Three copies of the engine are modelled:

- **Package engine.** The `src` package with its configuration and
  intervention modules. An unknown intervention name raises ValueError here.
- **Web engine.** The engine embedded in the web page. It runs the baseline
  for an unknown id and starts exercise at 40. Its JSON record replaces a
  missing healthspan or lifespan with the last recorded age and adds the
  per-row means.
- **Notebook script.** It uses module constants, selects the intervention
  by comparing names inside the loop body, and samples shocks in a loop
  over the subsystems. It also has `max_death_age`.

How the files are organised:

- `vectors.dfy`: length-3 vectors and matrices and the NumPy element-wise
  operations on them.
- `config.dfy`: the configuration records, the defaults and `timesteps`.
- `model.dfy`: the step as pure functions, and `step_state` as methods
  that update arrays in place. Each method is proved equal to its function.
- `interventions.dfy`: the handlers and the registry.
- `simulation.dfy`: the reference definitions and the loops that are
  proved equal to them.
  - `Trace` defines the records of a run, and `Summarize` turns them into
    its result.
  - The loops `Integrate`, `RunSim` and `RunMany` are proved equal to
    these definitions.
  - The same file has the run-level lemmas: bounds, organ replacement at
    most once, the shape of the history, healthspan no later than lifespan,
    and the error cases.
- `web_engine.dfy`: the web configurations, the handler fallback and the
  output record.
- `notebook.dfy`: the script's constants and its loop.
  - The loop body is proved equal to the package's handler-then-step
    timestep for the intervention the mode name selects.
  - The whole script loop is proved equal to the package run.
- `wrappers.dfy`: `Option`, `Result` and the error kinds.

Randomness, `exp` and errors are modelled as follows:

- **Random draws.** Every random draw is an input. A step consumes a
  `StepDraws` value, which holds:
  - the uniform draw behind each shock hit;
  - the standard-normal draw behind each shock magnitude;
  - the standard-normal noise;
  - the uniform draw behind the weighted choice of cause.

  A run consumes one such value per timestep, and an ensemble one stream
  per run.
- **`exp(-x)`.** This is a parameter `expNeg`. Lemmas that need its shape
  require `IsExpNeg`: equal to 1 at 0, positive, and non-increasing.
- **Errors.** Python exceptions are values of the `Result` type:
  - ValueError for an unknown name in the package;
  - KeyError for an organ scenario missing from the table;
  - ZeroDivisionError for `dt == 0` in `timesteps`;
  - IndexError for the web record's `ages[-1]` on an empty history.

The code validates no configuration, and the model follows it:

- a zero `dt` raises ZeroDivisionError;
- a negative `dt` gives an empty or reversed time grid;
- any threshold order is accepted.

The lemmas that need a sane configuration state it as a requirement, for
example an initial state within bounds or `0 <= dt`.

## Model

| member | source | states |
|---|---|---|
| Config.Trunc | web/public/py/aging_network/config.py:23-25 | `int()` of a float truncates toward zero: floor for non-negative values, ceiling for negative ones |
| Config.Timesteps | web/public/py/aging_network/config.py:23-25 | `timesteps` fails with ZeroDivisionError exactly when `dt` is zero |
| Config.TimestepsFitHorizon | web/public/py/aging_network/config.py:23-25 | for `years >= 0` and `dt > 0`, `timesteps` is the number of whole steps that fit: `t*dt <= years < (t+1)*dt` |
| Config.DefaultSimulationConfig | web/public/py/aging_network/config.py:12-25 | default thresholds satisfy `0 < death_threshold < func_threshold < 1`; the default time grid has 900 steps |
| Config.DefaultSystemConfig | web/public/py/aging_network/config.py:80-106 | the default initial state is in bounds; `C_base` has a zero diagonal, is symmetric and non-negative; all rates and coefficients are non-negative |
| Config.DefaultOrganScenarios | web/public/py/aging_network/config.py:111-115 | the scenario table has exactly the keys organ1-3, naming the node sets {0}, {0,1} and {0,1,2} |
| Config.DefaultInterventionConfig | web/public/py/aging_network/config.py:109-133 | exercise starts at 45; the replacement state (.9,.9,.85)/(.15,.15,.25) lies within the state bounds; the organ scenarios are the default table |
| Config.OrganScenariosNested | web/public/py/aging_network/config.py:111-115 | the organ scenarios are strictly nested {0} ⊂ {0,1} ⊂ {0,1,2}, and every scenario lies within the three subsystems |
| Vectors.Clip | src/aging_network/model.py:123-127 | `np.clip` lies within the bounds, keeps values inside them, and maps values beyond a bound to that bound |
| Vectors.MatVec | src/aging_network/model.py:117-118 | `C @ v` is, entry by entry, the row-times-vector sum |
| Vectors.Argmin | src/aging_network/simulation.py:104-105 | `np.argmin` gives a minimal entry, and the first one among equal minima |
| Model.DecayRate | src/aging_network/model.py:14-16 | one decay rate lies between `base` and `base*(1+beta)` for clipped damage |
| Model.RecoveryRate | src/aging_network/model.py:19-21 | one recovery rate lies between `base*(1-gamma)` and `base` for clipped damage |
| Model.Ceiling | src/aging_network/model.py:24-26 | one health ceiling lies between `1-k` and 1 for clipped damage |
| Model.EffectiveDecay | src/aging_network/model.py:14-16 | with non-negative parameters damage raises decay at most by the factor `1+beta` |
| Model.EffectiveRecovery | src/aging_network/model.py:19-21 | damage lowers recovery at most to `base*(1-gamma)` |
| Model.MaxHealth | src/aging_network/model.py:24-26 | the ceiling lies in `[1-k, 1]` |
| Model.CouplingMatrix | src/aging_network/model.py:29-33 | a zero diagonal stays zero; symmetric `C_base` gives a symmetric matrix; non-negative inputs give a non-negative matrix |
| Model.Coupling | src/aging_network/model.py:29-33 | a zero base entry stays zero; non-negative factors give a non-negative entry |
| Model.DerivedQuantitiesSeeClippedDamage | src/aging_network/model.py:14-33 | decay, recovery, ceiling and coupling depend on damage only through `clip(D, 0, 1)` |
| Model.DamageSaturatesAtOne | src/aging_network/model.py:14-33 | damage of 1 or more gives the same derived quantities as damage exactly 1 |
| Model.LowHealthDamage | src/aging_network/model.py:47 | damage accrued from low function is non-negative for non-negative `alpha` and `dt` |
| Model.ShockDamage | src/aging_network/model.py:48 | damage accrued from shocks is non-negative for non-negative factors |
| Model.UpdateStructuralDamage | src/aging_network/model.py:36-49 | new damage always lies in [0, 1.5]; with non-negative coefficients and shocks, in-bounds damage never decreases |
| Model.LocalShock | src/aging_network/model.py:111-115 | a local shock is never negative; zero without a hit or when the probability is zero; on a hit it is the sampled magnitude floored at zero |
| Model.TotalShock | src/aging_network/model.py:117-118 | total shock is local plus `C @ local`; no local shock gives no total shock; with non-negative coupling it is at least the local shock |
| Model.Recover | src/aging_network/model.py:123-125 | a non-positive recovery rate leaves health unchanged (the floor at 0); a rate with `rate*dt <= 1` moves health toward the ceiling without passing it |
| Model.Approach | src/aging_network/model.py:123-125 | one subsystem's recovery step stays between the start and the ceiling under `k*dt <= 1`, and is the identity for a zero rate |
| Model.StepShock | src/aging_network/model.py:107-118 | the step's total shock is non-negative under non-negative coupling |
| Model.Dynamics | src/aging_network/model.py:102-138 | before any reset, new health lies in [0, 1] and new damage in [0, 1.5], and no replacement is reported |
| Model.Override | src/aging_network/model.py:144-146 | `a[nodes] = repl[nodes]` takes the replacement exactly at the named indices and keeps all others |
| Model.Reset | src/aging_network/model.py:140-147 | the reset replaces exactly the named indices, for health and damage separately, and reports a replacement exactly when nodes are named |
| Model.Step | src/aging_network/model.py:102-154 | `replacement_applied` holds iff `replace_nodes` is given; replaced indices equal the replacement values exactly, others keep the computed clipped values; replacement values in bounds keep the whole state in bounds |
| Model.StepDeterministicWithoutShocksOrNoise | src/aging_network/model.py:102-138 | with no shock hit and zero noise, any two draws give the same step |
| Model.AssignAt | src/aging_network/model.py:144-146 | the in-place index write leaves the array equal to `Override` of its old contents |
| Model.StepState | src/aging_network/model.py:102-154 | the imperative `step_state` computes exactly `Step` |
| Model.StepDynamics | src/aging_network/model.py:102-138 | the part of `step_state` before the reset computes exactly `Dynamics` |
| Model.AddNoise | src/aging_network/model.py:126 | the in-place noise addition gives `X + noise_std * z` entry by entry |
| Model.DamageUpdate | src/aging_network/model.py:36-49 | copying the damage, adding both contributions in place and clipping gives `UpdateStructuralDamage` |
| Model.ApplyReset | src/aging_network/model.py:140-147 | the index writes into the result arrays give exactly `Reset` |
| Interventions.ApplyNone | web/public/py/aging_network/interventions.py:25-33 | the baseline is the identity adjustment: every scale 1 and no override |
| Interventions.ApplyExercise | web/public/py/aging_network/interventions.py:36-49 | identity before the start age; from then on recovery scale `1+gain` and damage scale `1-reduction`, every other field at its default |
| Interventions.ApplyDrug | web/public/py/aging_network/interventions.py:52-65 | identity before onset; from then on shock probability and mean are the baseline times the factor, and all scales stay 1 |
| Interventions.ApplyParabiosis | web/public/py/aging_network/interventions.py:68-89 | identity outside the window `start <= age <= start + duration`; inside it, each scale is `1 ± effect*strength` and there is no override |
| Interventions.ApplyOrganReplacement | web/public/py/aging_network/interventions.py:92-109 | identity once done or before the replacement age; otherwise the scenario's node set with the replacement state; KeyError exactly when the scenario is missing |
| Interventions.Handler | web/public/py/aging_network/interventions.py:112-124 | only an organ handler can fail or name nodes, only while the context is not done, and only with the configured replacement state |
| Interventions.RegistryCoversDefaultScenarios | web/public/py/aging_network/interventions.py:127-135 | the table has exactly the seven default scenario names; each organ handler is bound to its own name, which the default scenarios provide |
| Interventions.DefaultHandlersNeverFail | web/public/py/aging_network/interventions.py:127-135 | under the default configuration no registered handler raises |
| Interventions.OnsetIsPermanent | web/public/py/aging_network/interventions.py:44-65 | once started, exercise and drug give the same adjustment at every later age; before onset they are the baseline |
| Interventions.DrugNeverWorsensShocks | web/public/py/aging_network/interventions.py:60-65 | with a factor in [0, 1] the drug never raises a shock probability or mean, nor makes one negative |
| Interventions.ParabiosisFullStrengthAtOnset | web/public/py/aging_network/interventions.py:79-89 | at the start of the window the strength is 1, so each scale is `1 ± effect` |
| Interventions.ParabiosisWanes | web/public/py/aging_network/interventions.py:79-89 | inside the window the strength lies in (0, 1] and does not increase, and neither does the recovery boost |
| Interventions.ParabiosisEnds | web/public/py/aging_network/interventions.py:79-81 | after the window closes parabiosis is the baseline |
| Simulation.SelectIntervention | src/aging_network/simulation.py:36-40 | a registered name gives its handler; any other name raises ValueError |
| Simulation.AgeMonotone | src/aging_network/simulation.py:82 | with `dt >= 0` a later timestep has an age no earlier |
| Simulation.NextContext | src/aging_network/simulation.py:91-92 | `organ_done` is set after a step iff it was set before or the step applied a replacement |
| Simulation.Advance | src/aging_network/simulation.py:82-89 | a timestep records its age `start_age + t*dt` and its pre-step state; it fails only with an organ KeyError; it resets only under an organ handler not yet done; it keeps the state in bounds when the replacement state is |
| Simulation.AgesOf | src/aging_network/simulation.py:84 | the recorded ages are, one per record, the ages of the steps |
| Simulation.XsOf | src/aging_network/simulation.py:85 | the recorded health rows are the pre-step health, one per record |
| Simulation.DsOf | src/aging_network/simulation.py:86 | the recorded damage rows are the pre-step damage, one per record |
| Simulation.FirstCrossing | src/aging_network/simulation.py:94-96 | the healthspan step is the first with new mean health below the threshold: none iff no step is below, and every earlier step is at or above it |
| Simulation.Deficits | src/aging_network/simulation.py:100 | deficits are `max(threshold - X, 0)`, hence non-negative |
| Simulation.WeightedChoice | src/aging_network/simulation.py:101-103 | the index drawn with probabilities proportional to the deficits always has a positive deficit |
| Simulation.CauseOfDeath | src/aging_network/simulation.py:98-106 | for a dead state the cause is always a subsystem below the death threshold |
| Simulation.DeathHasPositiveDeficit | src/aging_network/simulation.py:100-105 | a state is dead iff its total deficit is positive, so the `argmin` fallback never decides a death |
| Simulation.HistoryAppend | src/aging_network/simulation.py:84-96 | appending a record appends its age and states to the histories and latches the healthspan only if not yet set |
| Simulation.TraceUnfold | src/aging_network/simulation.py:81-112 | a successful timestep ends the run if it kills, and otherwise continues from the new state and context |
| Simulation.StepFails | src/aging_network/simulation.py:88-89 | a handler error at a timestep is the error of the whole run |
| Simulation.StepKills | src/aging_network/simulation.py:98-110 | a fatal step ends the run: its row is overwritten with the death state, the lifespan is its age and the cause is drawn |
| Simulation.StepSurvives | src/aging_network/simulation.py:112 | a surviving step hands the new state and context to the next timestep |
| Simulation.RunCompletes | src/aging_network/simulation.py:114-121 | a run that uses the whole time grid keeps every row and has neither lifespan nor cause |
| Simulation.Integrate | src/aging_network/simulation.py:69-121 | the imperative loop (appends, flag update, healthspan latch, overwrite of the last row, break) computes exactly the reference run |
| Simulation.Timestep | src/aging_network/simulation.py:82-89 | one pass of the loop body computes exactly `Advance` |
| Simulation.RunSim | src/aging_network/simulation.py:43-121 | `run_sim`, with its defaults, handler selection and time grid, computes exactly the reference `RunSpec` |
| Simulation.CollectStopsAtFailure | src/aging_network/simulation.py:149-160 | once a run raises, the whole ensemble raises that error |
| Simulation.CollectShape | src/aging_network/simulation.py:146-160 | the ensemble succeeds iff every run does; it then has `n_runs` healthspans and lifespans, in run order, missing where the run's is |
| Simulation.CollectNext | src/aging_network/simulation.py:158-159 | a successful run appends its healthspan and lifespan to the ensemble |
| Simulation.RunMany | src/aging_network/simulation.py:124-160 | the `run_many` loop computes exactly the reference ensemble `RunManySpec` |
| Simulation.RunOne | src/aging_network/simulation.py:150-159 | one iteration either ends the ensemble with its outcome or extends it by one run |
| Simulation.RunEach | src/aging_network/simulation.py:146-160 | the loop over the runs computes exactly `Collect` of those runs |
| Simulation.TraceLength | src/aging_network/simulation.py:81-110 | a run has at most one record per timestep; only its last step can kill; a run that ends early ends on a death |
| Simulation.TraceThreaded | src/aging_network/simulation.py:81-112 | each record starts from the state and context its predecessor left |
| Simulation.TraceFacts | src/aging_network/simulation.py:81-92 | each record holds its age, its draws and the facts of `Advance` for its timestep |
| Simulation.OrganDoneLatches | src/aging_network/simulation.py:91-92 | once a step applies the replacement, every later step's context has `organ_done` set |
| Simulation.OrganReplacementAtMostOnce | src/aging_network/simulation.py:88-92 | organ replacement is applied at most once per run, and never by a non-organ handler |
| Simulation.RunStaysInBounds | src/aging_network/simulation.py:81-112 | from an in-bounds initial and replacement state, every recorded and every new state is in bounds: `X` in [0,1], `D` in [0,1.5] |
| Simulation.ResultInBounds | src/aging_network/simulation.py:108-121 | every row of the result, the death row included, is in bounds |
| Simulation.TraceNeverFails | src/aging_network/simulation.py:88 | a run cannot fail unless an organ handler's scenario is missing |
| Simulation.TraceErrorIsMissingScenario | src/aging_network/simulation.py:88 | a run's only possible error is the KeyError of an organ handler whose scenario is missing |
| Simulation.SummaryRows | src/aging_network/simulation.py:84-121 | the result's rows follow the time grid: one per step taken, at most `timesteps`, exactly `timesteps` without a death; lifespan and cause are present together, the lifespan being the last age and the cause below the threshold in the last row |
| Simulation.SummaryStates | src/aging_network/simulation.py:84-112 | the first row is the initial state unless a first-step death overwrote it, and only an overwritten last row is below the death threshold |
| Simulation.SummaryHealthspan | src/aging_network/simulation.py:94-96 | the healthspan, if any, is one of the recorded ages |
| Simulation.RunResultShape | src/aging_network/simulation.py:77-121 | every successful run's result has the row, state and healthspan shape above |
| Simulation.AgesOrdered | src/aging_network/simulation.py:94-99 | a healthspan that is a recorded age is no later than the lifespan, which is the last age |
| Simulation.HealthspanBeforeLifespan | src/aging_network/simulation.py:94-99 | with `dt >= 0`, whenever both are defined, healthspan <= lifespan |
| Simulation.UnknownInterventionFails | src/aging_network/simulation.py:62-66 | an unknown intervention raises ValueError before any step, whatever the configuration |
| Simulation.ZeroStepFails | src/aging_network/simulation.py:62-81 | a registered intervention with `dt == 0` raises ZeroDivisionError |
| Simulation.DefaultInterventionsNeverFail | src/aging_network/simulation.py:62-88 | every registered intervention runs without error under the default intervention configuration and a non-zero `dt` |
| WebEngine.WebDefaultsAgree | web/lib/pyodide-loader.ts:53-119 | the web defaults equal the package defaults except for the exercise onset, which is 40 instead of 45 |
| WebEngine.SettingsOverrideDefaults | web/lib/pyodide-loader.ts:371-372 | each setting the page sends is used, each one it leaves out takes its default, and no settings give the default configuration |
| WebEngine.WebSelect | web/lib/pyodide-loader.ts:280 | a registered id gives its handler, any other id the baseline; any organ handler selected has its scenario configured |
| WebEngine.MeanRows | web/lib/pyodide-loader.ts:342-343 | one mean per row, each the cross-subsystem mean of that row |
| WebEngine.AssembleOutput | web/lib/pyodide-loader.ts:329-345 | histories are passed through; a missing healthspan or lifespan becomes the last recorded age, so an empty history raises IndexError; one mean per row; the cause is an int when present and null otherwise |
| WebEngine.WebRunSim | web/lib/pyodide-loader.ts:360-386 | a page run computes exactly its reference `WebRunSpec` |
| WebEngine.WebRunIsPackageRun | web/lib/pyodide-loader.ts:274-345 | a web run is the package's run of the same id (or of "none" for an unknown id) under the web configurations, followed by the output mapping |
| WebEngine.UnknownIdRunsBaseline | web/lib/pyodide-loader.ts:280 | an unknown id gives exactly the output of "none", with no error |
| WebEngine.WebRunErrors | web/lib/pyodide-loader.ts:295-334 | a web run fails exactly when `dt` is zero (ZeroDivisionError) or the time grid is empty (IndexError); it never raises ValueError or KeyError |
| WebEngine.DefaultWebRunSucceeds | web/lib/pyodide-loader.ts:53-65 | with the default settings every id produces an output |
| WebEngine.WebOutputMeaning | web/lib/pyodide-loader.ts:377-386 | a successful output has one row per step with its means, the lifespan the last age, a cause below the threshold or else all timesteps, and with `dt >= 0` a healthspan that is a recorded age no later than the lifespan |
| WebEngine.RowsOfOutput | web/lib/pyodide-loader.ts:295-343 | the output rows inherit the result's row shape |
| WebEngine.SpansOfOutput | web/lib/pyodide-loader.ts:333-334 | the output's healthspan is a recorded age no later than its lifespan when `dt >= 0` |
| WebEngine.SpansOrdered | web/lib/pyodide-loader.ts:333-334 | the defaulted healthspan is a recorded age and at most the defaulted lifespan |
| WebEngine.WebMeansInRange | web/lib/pyodide-loader.ts:342-343 | every mean health lies in [0, 1] and every mean damage in [0, 1.5] |
| WebEngine.MeanInRange | web/lib/pyodide-loader.ts:342-343 | the mean of a vector within [0, hi] lies within [0, hi] |
| Notebook.NotebookConstantsAgree | model.py:9-120 | the script's constants are the package defaults except for the exercise onset of 40; its grid has 900 steps |
| Notebook.NotebookKindMatchesRegistry | model.py:209-278 | on the seven registered names the script's branches select the registered handler; any other name is the baseline, unless it starts with "organ" and is then an organ replacement whose scenario is missing |
| Notebook.NotOrganPrefix | model.py:277 | a name not starting with 'o' does not start with "organ" |
| Notebook.SampleShocks | model.py:243-249 | the per-subsystem shock loop writes exactly the local shocks of the package step into the zeroed array |
| Notebook.NotebookModifiers | model.py:199-241 | the exercise, parabiosis and drug branches give the rates, damage coefficients and shock parameters the package step derives from the handler's adjustment |
| Notebook.ModifiersIgnoreContext | model.py:199-241 | the modulation part of an adjustment does not depend on the organ flag |
| Notebook.NotebookDynamics | model.py:199-274 | the loop body up to the organ reset computes exactly the package step's dynamics under the mode's adjustment |
| Notebook.OrganReset | model.py:277-281 | the index writes set exactly the scenario's nodes to the replacement state and report a replacement |
| Notebook.NotebookOrganGuard | model.py:277-281 | the script's organ guard holds exactly when the handler resets nodes; KeyError exactly when the guard holds for a name with no scenario |
| Notebook.NotebookStep | model.py:199-281 | one loop body computes exactly the package's timestep for the mode's intervention |
| Notebook.NotebookRunSim | model.py:165-312 | the script's loop computes exactly the package run of the mode's intervention under the script's constants |
| Notebook.NotebookIteration | model.py:191-306 | one iteration either ends with the run's outcome or extends the history, flag and healthspan consistently with the reference run |
| Notebook.NotebookMatchesPackage | model.py:165-312 | for a registered name the script's run equals the package `run_sim` with an exercise onset of 40 |
| Notebook.UnknownModeRunsBaseline | model.py:209-277 | a name that is neither registered nor starts with "organ" runs the baseline without error, where the package raises ValueError |
| Notebook.MissingScenarioStopsBefore | model.py:277-278 | under an organ name without a scenario, every step of a successful run is before the replacement age |
| Notebook.MissingScenarioStep | model.py:277-278 | such a step is before the replacement age and leaves the flag unchanged |
| Notebook.MissingScenarioOutcome | model.py:277-312 | such a run dies before the replacement age, or its whole time grid is before it |
| Notebook.UnknownOrganModeFailsOrDiesEarly | model.py:277-278 | an unregistered "organ..." name either raises KeyError for that name or dies before age 65 |
| Notebook.Deaths | model.py:356 | the list of death ages holds exactly the lifespans of the modes that died; KeyError for the first mode without a result |
| Notebook.SeqMax | model.py:359 | `max` of a non-empty list is an element and at least every element |
| Notebook.MaxDeathAge | model.py:355-359 | `start_age + years` when no mode died; otherwise the largest death age, which is one mode's lifespan |

## Left out

- Floating point: all arithmetic is exact `real`. Rounding, overflow and NaN are not modelled. NumPy's `nan` for a missing ensemble value is `None`.
- Sampling distributions and stream order: each random draw is an input. The model does not say that the uniform and normal draws have their distributions, that they come from one generator stream, or in what order the engines consume them. The notebook draws a magnitude only on a hit; the package draws all magnitudes.
- Simulation.WeightedChoice: states that the drawn cause has a positive weight. It does not state that each subsystem is drawn with probability proportional to its deficit, which is a statement about distributions.
- Seeding: the seeding of `run_many` and `run_all_scenarios` is not modelled. `run_many` takes one draw stream per run. `run_all_scenarios` itself is not modelled, because it only loops `run_sim` over the scenario names.
- `exp`: the parabiosis strength uses the parameter `expNeg` in place of `np.exp`. Only the shape in `IsExpNeg` is assumed where a lemma needs it.
- Model.LocalShock, Model.Dynamics: a negative standard deviation is not an error. NumPy's `normal(loc, scale)` raises ValueError for `scale < 0`: the package at its first step for any negative `shock_std_base` or `noise_std` entry, the notebook at the first hit on such a node. The model computes `loc + scale * z` for every scale, so `RunSim`, `RunSpec` and `WebRunSim` return `Ok` where the source raises.
- Model.Reset, Config.DefaultOrganScenarios: scenario indices have the subsystem type, a natural number below 3. An `organ_scenarios` list that holds 3 or more, which raises IndexError at `D_new[nodes] = ...`, or a negative index, which Python wraps to count from the end, cannot be written in the model.
- Subsystem count: `n_nodes` and `node_names` are fixed at three subsystems by the vector type; the names are not modelled.
- Config keyword errors: the web page's `SimulationConfig(**config)` with an unknown key raises TypeError. The model only has the six known settings.
- I/O and presentation: the Pyodide bootstrap and cache, the JSON text and its parsing, the React pages, the plots and prints, and the notebook's scenario and plotting script (model.py:314-496 apart from `max_death_age`) are not modelled.
- Missing notebook result: `max_death_age` reads a module-level `results` dict, which is the map parameter here. A mode without a result, a KeyError in Python, is modelled as that error.
- Notebook time grid: `NotebookRunSim` takes the number of timesteps as a parameter. The script's own `timesteps` global is `NotebookTimesteps()`, which is 900, and the lemmas use it.
- Step result: the web engine's `step_state` returns a tuple without the total shock, and the model uses the package `StepResult` for it too. Both engines' loops read only the new state and the replacement flag.
- Interventions.IsExpNeg: `exp` is assumed non-increasing only, not strictly decreasing. So `ParabiosisWanes` states a non-increasing strength.
- Context: `InterventionContext` is a value that the loop rebinds. In the source it is an object the loop mutates, but it is fresh per run and never shared, so aliasing is not modelled.
