# Squash bug / pathogen stage-structured ODE: the rate function

The program is the compiled right-hand side of an ordinary differential
equation model of squash bugs and an insect pathogen. A host integrator
calls `derivs` with a 28-entry state vector. The routine fills a 28-entry
rate vector from it, using 32 rate constants that the host has stored
beforehand in a process-wide parameter array.

The 28 compartments are:
- overwintering adults `OA`, eggs `E` and first instars `L1`;
- two developmental routes, "primary" (`L2`…`L5`, `A`) and "occluded"
  (`L2o`…`L5o`, `Ao`), split from `L1` in the shares `p` and `1 - p`;
- an infected shadow of every stage on both routes (`L2I`…`AI`,
  `L2oI`…`AoI`);
- the free particle pool `P_I`;
- three accumulators of particle production (`Apo_PI`, `Sym_PI`,
  `OA_PI`);
- infected overwintering adults `OAI`.

Uninfected hosts are exposed by mass action (`B_pb*X*P_I`). Infected
hosts convert back at `c`, which is scaled by `c_o` on the occluded route.
Particles are produced up to the capacity `P0`.

The Dafny project has three modules:

- `Parameters` (`Params.dfy`) holds the 32 constants as a record with one
  field per `#define`. It also gives the positional slot layout in both
  directions and proves that layout is a bijection.
- `Derivatives` (`Rates.dfy`) holds:
  - the `State` record of 28 compartments and its mapping to and from the
    state vector;
  - one function per rate equation (`dOA` … `dOAI`);
  - the whole map `Rates` on records and `Derivs` on vectors;
  - the in-place routine `DerivsInto`. It reads the caller's `y` array,
    writes the caller's `ydot` array and is proved to produce
    `Derivs(P, y)`.
- `Properties` (`Properties.dfy`) holds what the equations promise:
  - the empty population is a rest point;
  - the route split adds up;
  - exposure only transfers hosts between a stage and its shadow, and
    touches no other equation;
  - particle production stops at capacity;
  - the particle pool's rate is the sum of the three accumulators' rates;
  - egg recruitment is logistic;
  - per-stage and per-route population balances;
  - for meaningful parameters (nonnegative rates, `0 <= p <= 1`,
    `K_E > 0`), every rate on the boundary of the nonnegative region with
    `P_I <= P0` points inward, which for this locally Lipschitz field makes
    the region forward invariant. The program checks no parameter range,
    and with `p > 1` the region is not kept.

The program has three irregularities. They are modelled exactly as
written, and lemmas state each one:
- infected occluded fifth instars are fed from `L2oI`, not `L4oI`;
- infected occluded adults die at `d_A`, not `d_Ao`;
- infected overwintering adults have no inflow.

Because of the first two, the occluded route's total is not balanced the
way the primary route's is. `OccludedRouteBalance` gives the exact extra
terms.

It is tempting to think that setting every death, maturation,
transition-out and transmission rate to zero makes every state
stationary. In the program it does not:
- fecundity `b` still recruits eggs;
- back-conversion `c` still moves every infected shadow to its uninfected
  compartment.

`StationaryNeedsNoConversionOrBirth` shows the surviving rates, and
`NoFlowsStationary` shows that zeroing `b` and `c` as well makes every
state a rest point.

## Model

| member | source | states |
|---|---|---|
| Parameters.FromSlots | Squash_bug_apographs3.c:6-37 | Reads the record off a 32-slot array. The contract pins sample slots (`d_A` from 0, `K_E` from 3, `p` from 16, `P0` from 31); together with the two round-trip lemmas the layout is a bijection. That every other field sits in its `#define`d slot rests on the body. |
| Parameters.Slots | Squash_bug_apographs3.c:6-37 | Lays the record out as a 32-slot array. The contract pins the length and sample slots (`l` in 1, `c` in 26, `B_pb` in 27, `B_bp` in 29); the remaining positions rest on the body. |
| Parameters.SlotsRoundTrip | Squash_bug_apographs3.c:6-37 | Every record is recovered from its slot array. |
| Parameters.FromSlotsRoundTrip | Squash_bug_apographs3.c:6-37 | Every 32-slot array is recovered from the record read off it: no two names share a slot and no slot is unnamed. |
| Derivatives.FromSeq | Squash_bug_apographs3.c:50-79 | Reads the named compartments off a 28-entry state vector. The contract pins sample indices (`OA` at 0, `P_I` at 23, `OAI` at 27); with the round-trip lemmas the layout is a bijection, and the remaining positions rest on the body. |
| Derivatives.ToSeq | Squash_bug_apographs3.c:81-119 | Lays a record of 28 values out as a 28-entry vector. The contract pins the length and sample indices (`E` at 1, `L5oI` at 21, `Apo_PI` at 24); the remaining positions rest on the body. |
| Derivatives.SeqRoundTrip | Squash_bug_apographs3.c:50-79 | Every 28-entry vector is recovered from its named compartments. |
| Derivatives.StateRoundTrip | Squash_bug_apographs3.c:50-79 | Every record of compartments is recovered from its vector. |
| Derivatives.Rates | Squash_bug_apographs3.c:81-119 | Composes the 28 per-equation functions `dOA` … `dOAI`, one per assignment on lines 81-119, into the rate record. For every state, the free-pool rate equals the sum of the three accumulators' rates. The overwintering-adult total `OA + OAI` changes only by death and transition-out, `-(d_A + l)*(OA + OAI)`. |
| Derivatives.Derivs | Squash_bug_apographs3.c:81-119 | The rate vector has 28 entries and `ydot[23] == ydot[24] + ydot[25] + ydot[26]`. |
| Derivatives.DerivsInto | Squash_bug_apographs3.c:47-120 | The whole of the 28-entry `ydot` buffer becomes the rate vector of the old contents of `y`, independent of `neq` and `t`. This holds even when `y` and `ydot` are the same buffer. A distinct `y` is left unchanged. |
| Properties.ZeroIsRestPoint | Squash_bug_apographs3.c:81-119 | With `K_E != 0`, all 28 rates of the empty population are zero, on records and on vectors. |
| Properties.RouteSplit | Squash_bug_apographs3.c:83-92 | The first-instar inflow to `L2` is `p*m_1*L1` and to `L2o` is `(1-p)*m_1*L1`. The two sum to `m_1*L1`, the maturation part of what `L1` loses (`d_1*L1 + m_1*L1`). |
| Properties.RouteSplitExtremes | Squash_bug_apographs3.c:85-92 | With `p = 1` the `L2o` rate does not depend on `L1`; with `p = 0` the `L2` rate does not. |
| Properties.ExposureL2 | Squash_bug_apographs3.c:85-98 | What `L2` loses to exposure, against the same parameters with `B_pb = 0`, is `B_pb*L2*P_I`, and `L2I` gains exactly that. |
| Properties.ExposureL3 | Squash_bug_apographs3.c:86-99 | The same exposure transfer from `L3` to `L3I`. |
| Properties.ExposureL4 | Squash_bug_apographs3.c:87-100 | The same exposure transfer from `L4` to `L4I`. |
| Properties.ExposureL5 | Squash_bug_apographs3.c:88-101 | The same exposure transfer from `L5` to `L5I`. |
| Properties.ExposureA | Squash_bug_apographs3.c:89-102 | The same exposure transfer from `A` to `AI`. |
| Properties.ExposureL2o | Squash_bug_apographs3.c:92-105 | The same exposure transfer from `L2o` to `L2oI`. |
| Properties.ExposureL3o | Squash_bug_apographs3.c:93-106 | The same exposure transfer from `L3o` to `L3oI`. |
| Properties.ExposureL4o | Squash_bug_apographs3.c:94-107 | The same exposure transfer from `L4o` to `L4oI`. |
| Properties.ExposureL5o | Squash_bug_apographs3.c:95-108 | The same exposure transfer from `L5o` to `L5oI`. |
| Properties.ExposureAo | Squash_bug_apographs3.c:96-109 | The same exposure transfer from `Ao` to `AoI`. |
| Properties.ExposureIsLocal | Squash_bug_apographs3.c:81-119 | The rates of `OA`, `E`, `L1`, `OAI` and the four particle compartments do not depend on `B_pb`. |
| Properties.ExposureMassAction | Squash_bug_apographs3.c:85-105 | Doubling `P_I` doubles the exposure loss of `L2` and `L2o` and the exposure gain of their shadows. |
| Properties.PoolSaturation | Squash_bug_apographs3.c:111-117 | When `P_I == P0`, the free-pool rate and the three accumulator rates are all zero. |
| Properties.AccumulatorsAreWriteOnly | Squash_bug_apographs3.c:76-78 | No rate depends on `Apo_PI`, `Sym_PI` or `OA_PI`: the whole rate record is unchanged when they change. |
| Properties.EggRecruitmentVanishes | Squash_bug_apographs3.c:82 | With `OA == OAI == 0`, and also at `E == K_E`, the egg rate is `-(d_E + m_E)*E`. |
| Properties.EggRecruitmentLogistic | Squash_bug_apographs3.c:82 | With positive `b`, positive `K_E` and some overwintering adults, recruitment is positive if and only if `E < K_E`, and negative if and only if `E > K_E`. |
| Properties.StageBalanceL2 | Squash_bug_apographs3.c:85-98 | `L2 + L2I` changes by `p*m_1*L1` less death and maturation of both: exposure and back-conversion cancel. |
| Properties.StageBalanceL3 | Squash_bug_apographs3.c:86-99 | `L3 + L3I` changes by maturation in from `L2` and `L2I`, less death and maturation of both. |
| Properties.StageBalanceL4 | Squash_bug_apographs3.c:87-100 | The same balance for `L4 + L4I`. |
| Properties.StageBalanceL5 | Squash_bug_apographs3.c:88-101 | The same balance for `L5 + L5I`. |
| Properties.StageBalanceA | Squash_bug_apographs3.c:89-102 | `A + AI` changes by maturation in from `L5` and `L5I`, less death at `d_A`. |
| Properties.StageBalanceL2o | Squash_bug_apographs3.c:92-105 | `L2o + L2oI` changes by `(1-p)*m_1*L1` less death and maturation of both. |
| Properties.StageBalanceL3o | Squash_bug_apographs3.c:93-106 | The same balance for `L3o + L3oI`, fed from `L2o` and `L2oI`. |
| Properties.StageBalanceL4o | Squash_bug_apographs3.c:94-107 | The same balance for `L4o + L4oI`, fed from `L3o` and `L3oI`. |
| Properties.StageBalanceL5o | Squash_bug_apographs3.c:95-108 | `L5o + L5oI` is fed from `L4o` and, as written, from `L2oI`, less death and maturation of both. |
| Properties.StageBalanceAo | Squash_bug_apographs3.c:96-109 | `Ao + AoI` is fed from `L5o` and `L5oI`. `Ao` dies at `d_Ao` and, as written, `AoI` dies at `d_A`. |
| Properties.PrimaryRouteBalance | Squash_bug_apographs3.c:85-102 | The ten primary compartments together change by the primary share of first-instar maturation less the death of each compartment. |
| Properties.OccludedRouteBalance | Squash_bug_apographs3.c:92-109 | The ten occluded compartments together change by the occluded share less death, plus the surplus `m_4o*L2oI - m_4o*L4oI` that the program's `L5oI` equation introduces. `AoI` dies at `d_A`. |
| Properties.OverwinteringInfectedIsClosed | Squash_bug_apographs3.c:119 | The `OAI` rate is `-(d_A + l + c)*OAI` and reads no other compartment, so `OAI = 0` has rate 0. |
| Properties.OccludedFifthInstarInflow | Squash_bug_apographs3.c:108 | The `L5oI` rate does not read `L4oI` and grows by `m_4o` per unit of `L2oI`. |
| Properties.OccludedFifthInstarsFromNowhere | Squash_bug_apographs3.c:108 | With `m_4o > 0` some state has `L4oI`, `L5oI` and `L5o` all empty and still a positive `L5oI` rate: infected fifth instars arise from infected second instars. |
| Properties.OccludedInfectedAdultDeath | Squash_bug_apographs3.c:109 | The `AoI` rate does not read `d_Ao` and falls by `h*AoI` when `d_A` grows by `h`. |
| Properties.OccludedInfectedAdultsMissDAo | Squash_bug_apographs3.c:109 | Whenever `d_A != d_Ao`, some state has an `AoI` rate different from the one the occluded adults' death rate `d_Ao` would give. |
| Properties.IrregularReadsOnVector | Squash_bug_apographs3.c:108-119 | On the state vector, `ydot[27]` depends only on `y[27]`, and `ydot[21]` does not depend on `y[20]`. |
| Properties.NoFlowsStationary | Squash_bug_apographs3.c:81-119 | With every per-capita rate zero (death, maturation, transition-out, fecundity, back-conversion, transmission, production), every state is a rest point. |
| Properties.StationaryNeedsNoConversionOrBirth | Squash_bug_apographs3.c:81-105 | With all other flow rates zero, fecundity still gives eggs a logistic rate. Back-conversion still moves `c*OAI`, `c*L2I` and `c*c_o*L2oI` from shadow to host. `L1` and the free pool are at rest. |
| Properties.BirthOrConversionBreaksStationarity | Squash_bug_apographs3.c:81-82 | With every other flow rate zero and `b != 0` or `c != 0`, some state is not a rest point. Together with `NoFlowsStationary`: with all other flows zero, every state is at rest if and only if `b = c = 0`. |
| Properties.InwardHeadOfLifeCycle | Squash_bug_apographs3.c:81-119 | For nonnegative parameters and a feasible state, an empty `OA`, `E`, `L1` or `OAI` has a nonnegative rate. |
| Properties.InwardPrimaryUninfected | Squash_bug_apographs3.c:85-89 | An empty uninfected primary stage has a nonnegative rate. |
| Properties.InwardOccludedUninfected | Squash_bug_apographs3.c:92-96 | An empty uninfected occluded stage has a nonnegative rate. |
| Properties.InwardPrimaryInfected | Squash_bug_apographs3.c:98-102 | An empty infected primary stage has a nonnegative rate. |
| Properties.InwardOccludedInfected | Squash_bug_apographs3.c:105-109 | An empty infected occluded stage has a nonnegative rate. |
| Properties.InwardPools | Squash_bug_apographs3.c:111-117 | An empty pool or accumulator has a nonnegative rate, and a free pool at capacity has a nonpositive rate. |
| Properties.RouteShareAboveOneLeavesRegion | Squash_bug_apographs3.c:92 | The program checks no parameter range. With `p > 1` and `m_1 > 0`, some feasible state has `L2o` empty and a negative `L2o` rate, so the bound on `p` in the parameter condition is needed. |
| Properties.FeasibleRegionInvariant | Squash_bug_apographs3.c:47-120 | For parameters with nonnegative rates, `0 <= p <= 1` and `K_E > 0`, and a nonnegative state vector with `y[23] <= P0`: every zero entry has a nonnegative rate, and `y[23] == P0` has a nonpositive rate. This is the boundary condition for forward invariance, proved through the six `Inward*` group lemmas. |

## Left out

- `initmod` and the `odeparms` callback (Squash_bug_apographs3.c:40-44) are not modelled. They are a foreign call through which the host fills the process-wide parameter array. The model passes the constants as an immutable `Params` record, and `FromSlots` gives the slot layout.
- IEEE-754 double arithmetic is not modelled: rounding, NaN, infinities, and `E/K_E` when `K_E == 0`. All arithmetic is over exact reals, and every member that evaluates the egg equation requires `K_E != 0`. The identity `ydot[23] == ydot[24] + ydot[25] + ydot[26]` holds exactly over reals, but need not hold bit for bit in doubles.
- Derivatives.DerivsInto: requires both buffers to have exactly 28 entries, where the C routine accepts buffers of any length. It therefore does not model writes past a short buffer, or the untouched tail of a longer one.
- The host ODE integrator, time stepping, the R and math headers and all I/O are not part of this model. `neq` and `t` are accepted and ignored, as in the program.
