# psobench optimizer bookkeeping, modelled in Dafny

psobench runs population-based optimizers (PSO, GSA, tiled GSA) on benchmark
functions, records what each iteration found, and writes it out as JSON. This
project models the part that all optimizers share, plus the PSO particle:

- `ParamValues` (`param_values.dfy`) covers `ParamValue`, a hyperparameter that is a float or an `isize`.
  `Display` prints an integer as plain decimal text. `Serialize` emits an integer
  through the cast `c as u64`. The model proves that the cast and the printing lose
  nothing: casting back (`AsIsize`) or parsing the text back (`ParseDecimal`)
  returns the original integer.
- `PsoParticle` (`pso_particle.dfy`) covers the PSO `Particle`. It is a class with
  fields `pos`, `vel` and `bestPos`, plain getters (`Pos`, `Vel`, `OptionBestPos`)
  and setters that change their own field and nothing else. The constructor builds
  zero vectors of the problem's dimension and no best position. It then applies the
  three init hooks in the source order: Position, BestPosition, Velocity.
  `Snapshot` is `clone()`, and `ParticleRecord` is the cloned value.
- `Optimizers` (`optimizers.dfy`) covers the optimizer state used by
  `src/optimizers/traits.rs`: the problem, the particles, the optional global
  best, and the recorded log of `(global best fitness, particle snapshot)`.
  - `UpdateGlobalBestPos` replaces the global best only on strict improvement.
  - `Improved` is that rule as a function. `BestAfter` applies it to a sequence of
    candidates. The lemmas about `BestAfter` show that repeated updates never raise
    the global best's fitness. They also show that the result is the earliest
    position of the lowest fitness.
  - `SaveData`, `SaveSummary` and `SaveConfig` build the values that go to the JSON
    serialiser. Each JSON object shape is a datatype: `IterationExport`,
    `ParticleExport`, `SummaryExport` and `ConfigExport` (its `optimizer` field is
    the object under the key `"method"`).

The objective function is a field `fitness: seq<real> -> real` of `Problem`.
The memoizing `f` and the uncached `f_no_memo` are assumed to compute the same
pure function, differing only in the cache and the counter, so both are
`fitness` here. Vectors of `f64` are `seq<real>`.

A negative integer parameter is written to `config.json` as `c + 2^64`. This is
because of the `as u64` cast (src/optimizers/traits.rs:34), so only non-negative
integers are written as-is. `SerializeRoundTrip` shows that the value is still
recoverable.

## Model

| member | source | states |
|---|---|---|
| `ParamValues.AsU64` | src/optimizers/traits.rs:34 | `c as u64` is the u64 congruent to `c` modulo 2^64; a negative `c` lands at or above 2^63 |
| `ParamValues.CastRoundTrip` | src/optimizers/traits.rs:34 | casting the u64 back to isize gives the original integer |
| `ParamValues.CastRoundTripUnsigned` | src/optimizers/traits.rs:34 | every u64 is the cast of its own isize reading; with `CastRoundTrip` this makes the cast a bijection |
| `ParamValues.Serialize` | src/optimizers/traits.rs:27-37 | a float is emitted as an f64 with the same value; an integer as a u64 whose isize reading is the integer, equal to it when non-negative |
| `ParamValues.SerializeRoundTrip` | src/optimizers/traits.rs:27-37 | reading a serialised parameter back gives the parameter |
| `ParamValues.SerializeInjective` | src/optimizers/traits.rs:27-37 | distinct parameters never serialise to the same JSON number |
| `ParamValues.NatDigits` | src/optimizers/traits.rs:22 | the decimal text of a natural number is non-empty, all digits, and has no leading zero |
| `ParamValues.NatDigitsRoundTrip` | src/optimizers/traits.rs:22 | the digits denote the number they were printed from |
| `ParamValues.Decimal` | src/optimizers/traits.rs:22 | `{}` on an integer: non-empty text that starts with '-' exactly when the integer is negative, then a non-empty run of digits with no leading zero unless the integer is 0 |
| `ParamValues.DecimalRoundTrip` | src/optimizers/traits.rs:22 | the printed text of an integer, with its '-' sign, parses back to the integer |
| `ParamValues.DecimalInjective` | src/optimizers/traits.rs:22 | distinct integers print differently |
| `ParamValues.Display` | src/optimizers/traits.rs:18-25 | a float is shown by the two-decimal formatter; an integer as canonical decimal text: it parses back to the integer, starts with '-' exactly when the integer is negative, and its digits have no leading zero unless the integer is 0 |
| `PsoParticle.Zeros` | src/pso/particle.rs:19-20 | `DVector::from_element(n, 0.)` has length `n` and every entry 0 |
| `PsoParticle.Blank` | src/pso/particle.rs:18-22 | the particle before any hook: position and velocity of length `dim`, all zero, and no best position |
| `PsoParticle.Initialised` | src/pso/particle.rs:18-26 | the value `new` returns: the blank particle passed through the Position, BestPosition and Velocity hooks, in that order |
| `PsoParticle.InitialisedWithoutBestPos` | src/pso/particle.rs:18-25 | `new` starts from no best position, so if no hook sets one, the new particle has none |
| `PsoParticle.Particle.constructor` | src/pso/particle.rs:17-27 | the new particle is the zero particle of the problem's dimension with no best position, passed through the Position, BestPosition and Velocity hooks in that order |
| `PsoParticle.Particle.Load` | src/pso/particle.rs:23-25 | an init hook's effect: the particle becomes the hook's result |
| `PsoParticle.Particle.Snapshot` | src/pso/particle.rs:9-14 | `clone()` of the derived `Clone`: the value of all three fields |
| `PsoParticle.Particle.Pos` | src/pso/particle.rs:31-33 | the current position |
| `PsoParticle.Particle.Vel` | src/pso/particle.rs:55-57 | the current velocity |
| `PsoParticle.Particle.OptionBestPos` | src/pso/particle.rs:45-47 | the optional best position, total, `None` until one is set |
| `PsoParticle.Particle.BestPos` | src/pso/particle.rs:41-43 | defined only when a best position is set, and returns that position |
| `PsoParticle.Particle.SetPos` | src/pso/particle.rs:35-37 | the position becomes `p`; velocity and best position are unchanged |
| `PsoParticle.Particle.SetBestPos` | src/pso/particle.rs:49-51 | the optional best position becomes `Some(p)`, so `BestPos` returns `p`; position and velocity are unchanged |
| `PsoParticle.Particle.SetVel` | src/pso/particle.rs:59-61 | the velocity becomes `v`; position and best position are unchanged |
| `Optimizers.Improved` | src/optimizers/traits.rs:58-63 | the kept position is the candidate or the current best, no worse than either, and the current best on a tie |
| `Optimizers.BestAfterStep` | src/optimizers/traits.rs:58-63 | one more update after a series of updates is one more step of `BestAfter`, so `BestAfter` is the global best a series of updates leaves |
| `Optimizers.BestAfterIsLowest` | src/optimizers/traits.rs:58-63 | after a series of updates the global best is at least as good as the start and as every candidate offered |
| `Optimizers.BestAfterMonotone` | src/optimizers/traits.rs:58-63 | the global best's fitness never rises from one update to any later one |
| `Optimizers.BestAfterEarliest` | src/optimizers/traits.rs:58-63 | repeated updates end on the earliest offered position of the lowest fitness (the start wins all ties) |
| `Optimizers.EarliestMinimumUnique` | src/optimizers/traits.rs:58-63 | that earliest lowest position is unique, so it characterises the result of repeated updates |
| `Optimizers.Optimizer.constructor` | src/optimizers/traits.rs:39 | not the trait's `new` (which takes a name, problem, parameters and output directory): a builder for the state the supertraits of `Optimizer` expose, from a name, a problem, the particles, the global best and the recorded log |
| `Optimizers.Optimizer.OptionGlobalBestPos` | src/optimizers/traits.rs:56 | the optional global best, as `option_global_best_pos()` gives it (declared without a body; assumed to return the field) |
| `Optimizers.Optimizer.GlobalBestPos` | src/optimizers/traits.rs:55-56 | assumed to unwrap the optional global best (declared without a body): defined only when a global best exists, and returns it |
| `Optimizers.Optimizer.SetGlobalBestPos` | src/optimizers/traits.rs:57 | assumed to be a plain assignment (declared without a body): the global best becomes `Some(pos)` and nothing else changes |
| `Optimizers.Optimizer.UpdateGlobalBestPos` | src/optimizers/traits.rs:58-63 | needs an existing global best; replaces it by `pos` exactly when `pos` is strictly fitter, else keeps it; its fitness never rises and ends no worse than `pos`'s; particles and log are unchanged |
| `Optimizers.Optimizer.SaveData` | src/optimizers/traits.rs:81-104 | one record per logged iteration, in order, with that iteration's global best fitness and one entry per particle of its snapshot, in order, holding the particle's fitness, velocity and position |
| `Optimizers.Optimizer.SaveConfig` | src/optimizers/traits.rs:106-119 | nests the problem's name and dimension under "problem", and the optimizer's name and exactly the given parameters, each serialised recoverably, under "method" |
| `Optimizers.Optimizer.SaveSummary` | src/optimizers/traits.rs:121-132 | one global best fitness per logged iteration, equal to the log's entry, in order, plus the problem's evaluation count |

## Left out

- Writing the files (`fs::write`) and turning values into JSON text (`serde_json::to_string`) are I/O and a foreign serialiser. The save operations return the value that would be serialised, so their I/O error paths do not appear.
- ParamValues.Display: the `{:.2}` formatting of a float is floating-point text formatting. It is the parameter `fixed2`.
- Fitness evaluation: `f` and `f_no_memo` live in the `Problem` source, which is not part of this model. The model assumes they compute the same pure function, so the fitness `SaveData` exports is the one that drives `UpdateGlobalBestPos`.
- Floating-point arithmetic: `f64` is `real` and the objective function is an opaque parameter. Rounding and NaN are not modelled.
- Optimizers.Optimizer.UpdateGlobalBestPos: both evaluations go through the memoizing `f`, which can raise the problem's evaluation counter on a cache miss. The memo cache and the counter's updates live in the `Problem` source, which is not part of this model, so the model leaves the counter as it was.
- PsoParticle.Particle.constructor: the bodies of the init hooks `Position::init`, `BestPosition::init` and `Velocity::init` (random initialisation) are not part of this model. Each hook is a given transformation of the particle. `Position::init` and `Velocity::init` receive `&mut Problem` in the source; the model passes them only the dimension, so any effect a hook has on the problem is not modelled.
- `new`, `init`, `calculate_vel`, `run`, `particles`, `particles_mut`, `global_best_pos`, `option_global_best_pos`, `set_global_best_pos`, `name`, `problem`, `data`, `add_data` and `out_directory` are declared in src/optimizers/traits.rs without bodies. Their implementations, the PSO, GSA and tiled-GSA update rules, and the grid search are not part of this model. The model assumes the accessors read their field, `global_best_pos` unwraps and `set_global_best_pos` is a plain assignment. The optimizer's constructor receives an already recorded log instead of the trait's `new` arguments.
- The traits are generic over the particle type. The model fixes it to the PSO particle's value, of which the exports read only `pos` and `vel`.
- `isize` is taken to be 64 bits wide.
- `main.rs`, `executers.rs` and the Python visualiser are experiment wiring and plotting.
