# MCEq core bookkeeping in Dafny

MCEq solves the cascade equations of particles in the atmosphere. Its class
`MCEqRun` (`MCEq/core.py`) works mostly in floating-point linear algebra. Beneath
that numerical layer is a layer of exact bookkeeping, and this project models and
verifies that layer:

- **State-vector layout** (`particles.dfy`, module `Particles`).
  - Species are sorted by critical energy.
  - They are split into cascade particles and resonances.
  - Each cascade particle gets a block index `nceidx`.
  - The six lookup dictionaries of `__init__` are built from the list. A
    resonance looks up as -1.
  - The state dimension is `d * n_tot_species`.
- **Alias and observer routing tables** (`aliases.dfy`, module `Aliases`).
  - The prompt mothers are chosen by comparison with D+.
  - The 70xx/71xx/72xx alias table and the 73xx observer table are keyed by
    (mother, lepton).
  - `_alias` and `_alternate_score` look up absolute ids and re-apply the
    daughter's sign.
  - `set_obs_particles` converts observer names to ids.
- **Chain routing** (`chains.dfy`, module `Chains`).
  - Matrix values are symbolic. Each `+=` of `_follow_chains` and
    `_fill_matrices` into `C` or `D` is a `Contribution`: a destination block, a
    source block, and the chain of decay and yield hops whose redistribution
    matrices it multiplies.
  - `Operator` is the in-place matrix that collects these contributions.
  - `Follow` states the recursion as a function. The method `FollowChains` is
    proved to add exactly `Follow`.
  - Soundness and completeness lemmas tie every contribution to a decay chain
    through mixed daughters, routed through the alias and observer tables.
- **Result retrieval** (`solution.dfy`, module `Retrieval`).
  - `get_solution` for plain, `total_` and `conv_` names, with per-bin weights in
    place of `e_grid ** mag`.
- **Integration-path planner** (`path.dfy`, module `Integration`).
  - The stepping loop of `_calculate_integration_path` over an abstract positive,
    bounded inverse-density profile.
  - Steps snap to requested depths.
  - The path is cached on `(int_grid, grid_var)`.
- **Two decision tables** (`decisions.dfy`, module `Decisions`).
  - The CORSIKA-id nucleon split of `set_single_primary_particle`.
  - The kernel choice of `_forward_euler`.
- **The run object** (`run.dfy`, module `Run`).
  - `class MCEqRun` holds the fields above.
  - Its constructor builds the species list, dictionaries, tables and both
    matrices.
  - `SetObsParticles` rebuilds the tables and matrices.
  - `SetThetaDeg` invalidates the cached path.
  - `CalculateIntegrationPath` maintains the cache.
  - The class keeps the invariant `Valid()`: the layout, the routing tables and
    the cache agree with the inputs.

`base.dfy` (module `Base`) holds `Option`, `Result`, `Sign` and `Abs`, plus
`Build`. `Build` is a Python dictionary filled in order by a sequence of
assignments, with the last write winning.

External providers are inputs to the model:

| Provider | Modelled as |
|---|---|
| Particle data tables | a sequence of `Species` records |
| Decay tables | a map from mother to daughters |
| Yield tables | a map from projectile to secondaries |
| Atmosphere | a `Profile` with a positive, bounded `rhoInv` |

A ghost `rank` orders the decay catalog so that every daughter ranks below its
mother. It witnesses that decay chains end.

## Model

| member | source | states |
|---|---|---|
| Particles.SortByECritCorrect | MCEq/core.py:242 | the sorted species list is ordered by ascending E_crit and is a permutation of the input |
| Particles.NonResonant | MCEq/core.py:248 | no cascade particle is a resonance |
| Particles.Resonant | MCEq/core.py:249 | every species in the resonance list is a resonance |
| Particles.SplitCorrect | MCEq/core.py:248-249 | the two lists together are a permutation of the sorted list, and each keeps the E_crit order |
| Particles.GenListOfParticles | MCEq/core.py:218-254 | the result is cascades followed by resonances, both sorted; their lengths add up to the input; cascade i has index i and is no resonance; every resonance is one |
| Particles.SpeciesListCorrect | MCEq/core.py:218-254 | distinct ids and names stay distinct in the species list, resonances get no index, and no species is lost or duplicated |
| Particles.SpeciesListIds | MCEq/core.py:218-254 | the species list has exactly the ids of the input records |
| Particles.SpeciesListIndexed | MCEq/core.py:218-254 | the species list is well indexed: cascade indices are 0..n-1 in order, resonances have none, ids and names are distinct |
| Particles.DictionariesStep | MCEq/core.py:132-142 | one loop step writes the current species into each of the six dictionaries and changes nothing else |
| Particles.FillDictionaries | MCEq/core.py:132-142 | the loop builds the six dictionaries, and the keys of pdg2pref are the ids of the list |
| Particles.PairsLookup | MCEq/core.py:132-142 | a key written only once in the loop maps to the value written for it |
| Particles.CascadeLookup | MCEq/core.py:132-142 | cascade particle i maps to index i by id and by name, and index i maps back to its id, name and record |
| Particles.ResonanceLookup | MCEq/core.py:133-142 | a resonance maps to index -1 by id and by name, and to its own record |
| Particles.LookupKeys | MCEq/core.py:132-142 | the id and name dictionaries hold exactly the ids and names of the species list |
| Particles.BlockBounds | MCEq/core.py:145-147 | every cascade particle's block, the last one included, starts at or after 0, has width d and ends within d * n_tot_species |
| Particles.BlocksTile | MCEq/core.py:145-147 | of two cascade particles, the one with the lower index owns the earlier block, and the two blocks do not overlap |
| Aliases.PromptIdsMembers | MCEq/core.py:274-278 | an id is prompt exactly when some species that is not a lepton, not an alias, has a non-negative id and has E_crit at least that of D+ carries it |
| Aliases.ScanPromptIds | MCEq/core.py:274-278 | the loop finds exactly the prompt ids, and fails (KeyError) exactly when D+ is missing and some species reaches the comparison |
| Aliases.AliasTableContents | MCEq/core.py:279-283 | the alias table's keys are exactly (211,l), (321,l) and (prompt,l) for the four neutrino and muon ids; a prompt key maps to 7000+l, and otherwise pions map to 7100+l and kaons to 7200+l |
| Aliases.FillAliasTable | MCEq/core.py:279-283 | the nested loop builds exactly that table |
| Aliases.ObsTableContents | MCEq/core.py:287-295 | the observer table is empty without observers; otherwise (m,l) is a key exactly when m is an observer id present in pdg2pref and l a lepton, with value 7300+l |
| Aliases.FillObsTable | MCEq/core.py:287-295 | the loop builds exactly that table, and ids missing from pdg2pref are skipped |
| Aliases.Lookup | MCEq/core.py:412-420 | no range exactly when (abs mother, abs daughter) is not a key; a failure only for a target id missing from the dictionary |
| Aliases.LookupSymmetry | MCEq/core.py:412-420 | the mother's sign does not matter, and the daughter's sign picks the target species or its antiparticle |
| Aliases.AliasRouting | MCEq/core.py:412-420 | a pion, kaon or prompt mother's lepton is routed to the 71xx, 72xx or 70xx alias range with the lepton's sign, and a prompt mother takes precedence |
| Aliases.OnlyLeptonsAliased | MCEq/core.py:433-441 | neither table routes a daughter that is not one of the four leptons |
| Aliases.ShowParse | MCEq/core.py:516 | `int()` reads back the canonical numeral of every integer, with or without a minus sign |
| Aliases.ParsePadded | MCEq/core.py:516 | `int()` reads back the digits of every natural number behind any number of leading zeros, with no sign, a plus or a minus |
| Aliases.ConvertObsIds | MCEq/core.py:513-518 | on success each observer is converted in order (int() first, name table second); on failure the error is the first observer that converts neither way |
| Aliases.SetObsAsWrittenKeepsStaleTable | MCEq/core.py:510-512 | as written, clearing observers keeps the old observer table |
| Aliases.SetObsCurrent | MCEq/core.py:500-525 | after the rebuild, no mother outside the observer list is scored as an observer |
| Chains.DaughterFacts | MCEq/core.py:768-790 | in a closed, ranked catalog a daughter is registered, ranks below its mother, and both lookups succeed |
| Chains.ChainLast | MCEq/core.py:761-813 | every chain ends with a decay into the hadronic index of a daughter |
| Chains.FollowSound | MCEq/core.py:761-813 | every contribution comes from a decay chain from the mother: mixed daughters along the way, the column block of the original mother, the destination routed through the tables |
| Chains.FollowFromSound | MCEq/core.py:768-813 | the same for the contributions of the first n daughters |
| Chains.StepSound | MCEq/core.py:768-810 | the same for the contributions of one daughter |
| Chains.StepInFollowFrom | MCEq/core.py:768 | a daughter's contributions are among those of the loop over all daughters |
| Chains.FollowComplete | MCEq/core.py:768-810 | every daughter adds its routed contribution, and its observer contribution when there is one, in the original mother's column; a mixed daughter's chain is continued in full |
| Chains.UnmixedStops | MCEq/core.py:803-812 | an unmixed daughter ends the chain: only its own one-hop contributions are added |
| Chains.PionLeptonsRouted | MCEq/core.py:776-790 | a lepton from a non-prompt pion lands in the 71xx alias range or in an observer range |
| Chains.FillDSound | MCEq/core.py:824-829 | every D contribution comes from a cascade particle with decays, lies in that particle's column, and follows a routed decay chain |
| Chains.FillCForSound | MCEq/core.py:836-855 | every contribution for a projectile is its direct yield into a non-resonant secondary, or a routed chain that starts with a yield into the secondary's resonance index |
| Chains.FillCSound | MCEq/core.py:832-855 | every C contribution comes from a projectile among the cascade particles |
| Chains.ScoreDecay | MCEq/core.py:772-790 | one daughter adds its routed and observer contributions to the matrix and nothing else |
| Chains.FollowChains | MCEq/core.py:761-813 | the recursive method adds to the matrix exactly the contributions `Follow` specifies, so it inherits soundness and completeness |
| Chains.FollowDaughter | MCEq/core.py:768-813 | one loop iteration adds the next daughter's contributions |
| Retrieval.Find | MCEq/core.py:481 | the first occurrence of a character, or none |
| Retrieval.SecondField | MCEq/core.py:481 | `split('_')[1]`: present exactly when the name has an underscore, and free of underscores |
| Retrieval.SecondFieldOf | MCEq/core.py:481 | the field after the first underscore is found, whatever follows it |
| Retrieval.SumBlocks | MCEq/core.py:482-486 | the sum is defined exactly when every prefixed species' block is, and has d bins |
| Retrieval.AccumulateBlocks | MCEq/core.py:482-493 | the loop computes exactly that sum |
| Retrieval.SumBlocksFailure | MCEq/core.py:482-486 | the first failing block decides the error |
| Retrieval.GetSolution | MCEq/core.py:443-498 | the method returns the retrieval that `Retrieved` specifies |
| Retrieval.TotalIsConvPlusPrompt | MCEq/core.py:480-493 | the total is defined exactly when the conventional flux and the prompt block are, and equals their sum |
| Retrieval.SumsOfFour | MCEq/core.py:480-493 | when all four blocks exist, both sums exist and total = conv + prompt |
| Retrieval.TotalName | MCEq/core.py:475-493 | `get_solution('total_x')` is `get_solution('conv_x')` plus the pr_x slice of the same solution |
| Retrieval.TotalNameShape | MCEq/core.py:480-481 | a `total_` name takes the total branch and yields the lepton name |
| Retrieval.ConvNameShape | MCEq/core.py:487-488 | a `conv_` name takes the conventional branch and yields the lepton name |
| Retrieval.PlainName | MCEq/core.py:494-497 | any other name returns only its own weighted slice |
| Retrieval.MissingField | MCEq/core.py:480-488 | a total or conv name without an underscore raises IndexError |
| Integration.MinStep | MCEq/core.py:999-1000 | steps have a positive lower bound |
| Integration.StepAtLeast | MCEq/core.py:999-1000 | every unsnapped step is at least that bound, which makes the loop terminate |
| Integration.RemainingDrops | MCEq/core.py:997-1009 | the loop measure decreases with a full step |
| Integration.PlanStep | MCEq/core.py:997-1009 | one loop iteration records one step and one density sample, and records its index when it snaps |
| Integration.PlanPath | MCEq/core.py:989-1017 | the while loop returns exactly the planned path |
| Integration.SumCons | MCEq/core.py:1007 | depth after j+1 steps is the first step plus the depth after j more |
| Integration.PlanShape | MCEq/core.py:997-1009 | one density sample per step; snapshot indices are step numbers, strictly increasing, and no more than the requested depths |
| Integration.PlanLands | MCEq/core.py:1001-1004 | each recorded step ends exactly at its requested depth |
| Integration.PlanStops | MCEq/core.py:997 | stepping stops at the first depth at or below the surface: every step starts above it, and the last one reaches it |
| Integration.PlanSteps | MCEq/core.py:998-1007 | each density sample is taken where its step starts, and each step is the full step length unless it is a snapped one |
| Integration.PlannedPath | MCEq/core.py:989-1017 | the stored path has nsteps == len(dX) == len(rho_inv), increasing snapshot indices landing on the requested depths, and it covers the column |
| Integration.PlanRecordsAll | MCEq/core.py:997-1009 | on an ascending grid of depths between the current depth and the surface, exactly one step is recorded per requested depth still ahead |
| Integration.PlannedRecordsAll | MCEq/core.py:989-1009 | the stored path records one snapshot per requested depth when the grid is ascending and lies above the surface |
| Integration.GridsMatch | MCEq/core.py:973 | the grid test with numpy broadcasting: equal grids match, equal-length grids match only when equal, a missing grid matches only a missing one, and grids of different lengths match only when one of them has a single depth |
| Integration.CalcAsWritten | MCEq/core.py:973-980 | as written, the call raises exactly for a grid variable other than 'X' that misses the broadcasting cache test, and then leaves the request stored beside the old path; a hit for another variable leaves the cache as it was; for 'X' the cache is either kept or holds the path planned for the request |
| Integration.AsWrittenBroadcastHit | MCEq/core.py:973-975 | as written, a path cached for the grid [5] is returned for the grid [5, 5]: it records one snapshot, while the path planned for [5, 5] records two |
| Integration.AsWrittenServesStalePath | MCEq/core.py:977-980 | as written, repeating a failed call returns a cached path that does not belong to its key |
| Integration.CalcCorrect | MCEq/core.py:969-1017 | the corrected call raises exactly for a grid variable other than 'X' and then leaves the cache unchanged; otherwise it stores the planned path for the request, keeps the cache consistent, and a hit returns the cache unchanged |
| Decisions.NucleonSplit | MCEq/core.py:650-658 | id 14 is one proton with the whole energy; the split fails (division by zero) exactly for another non-negative id below 100 |
| Decisions.NucleonSplitCorrect | MCEq/core.py:650-658 | for a nucleus, Z is the last two digits, protons plus neutrons make A, and A nucleons carry the total energy |
| Decisions.IronSplit | MCEq/core.py:650-658 | iron 5626 is 26 protons and 30 neutrons, each with energy E/56 |
| Decisions.KernelChoice | MCEq/core.py:938-958 | an unsupported combination raises with the sparsity flag and the configuration name |
| Decisions.KernelChoiceCorrect | MCEq/core.py:938-958 | a kernel is found exactly for numpy, CUDA and sparse MKL; numpy ignores sparsity; every other kernel is sparse exactly when sparse matrices were asked for |
| Run.AliasTarget | MCEq/core.py:412-420 | a lepton entry of a routing table points at a registered alias species |
| Run.RoutingClosed | MCEq/core.py:256-295 | with the alias species and all daughters and secondaries registered, the tables built by `_init_alias_tables` never make `_alias` or `_alternate_score` fail |
| Run.CascadeRegistered | MCEq/core.py:132-142 | every cascade particle is registered under its id in pdg2pref |
| Run.IndexSpecies | MCEq/core.py:115-147 | the species list and its six dictionaries, well indexed and sorted, with pdg2pref keyed by the input ids |
| Run.InitAliasTables | MCEq/core.py:256-295 | both routing tables, as their specifications define them for the species list and observer ids |
| Run.FillCForNext | MCEq/core.py:836-855 | one secondary adds its direct yield and then the chains started from its resonance index |
| Run.AddDirectYield | MCEq/core.py:837-845 | a non-resonant secondary adds its direct yield; a resonance adds nothing |
| Run.ScoreSecondary | MCEq/core.py:836-855 | one iteration over secondaries adds that secondary's contributions |
| Run.FillSecondaries | MCEq/core.py:836-855 | the loop over a projectile's secondaries adds all of its contributions |
| Run.FillMatrices | MCEq/core.py:815-855 | two fresh, distinct matrices holding exactly the D and C contributions of every cascade particle |
| Run.Initialize | MCEq/core.py:115-154 | the species list, indexed, with dictionaries and dimension; the tables without observers; both matrices filled |
| Run.Reroute | MCEq/core.py:524-525 | rebuilding for new observer ids keeps the tables consistent with the species list, and refills both matrices over the new tables |
| Run.MCEqRun.constructor | MCEq/core.py:62-154 | the run is valid: its species list and dictionaries come from the records, its tables have no observers, both matrices are filled, and no path is cached |
| Run.MCEqRun.SetObsParticles | MCEq/core.py:500-525 | a failed conversion changes nothing; otherwise the ids are the converted observers in order, the tables are rebuilt for them, and both matrices are refilled |
| Run.MCEqRun.SetThetaDeg | MCEq/core.py:735-756 | no atmosphere raises, the same angle skips, and a new angle sets the atmosphere and drops the cached path; the run invariant (indices, routing tables, consistent cache) is kept |
| Run.MCEqRun.CalculateIntegrationPath | MCEq/core.py:969-1017 | it raises exactly for a grid variable other than 'X'; otherwise the cache holds the planned path for the requested grid; the run invariant is kept |

## Left out

- The physics providers are parameters of the model. These are the particle data
  tables, interaction and decay yields, cross sections, density profiles and
  primary fluxes. Their classes are not part of this model.
- Matrix values and all floating point are left out:
  - the Λ scaling and `-I + C` in `_init_default_matrices`;
  - sparse conversion and density diagnostics;
  - the float32 casts of the path;
  - the redistribution matrices from `assign_d_idx` and `assign_yield_idx`, which
    are symbolic hops.

  Depths and fluxes are Dafny reals.
- `e_grid ** mag` in `get_solution` is an abstract per-bin weight.
- `_odepack`, the `kernels` module, `EdepZFactors`, the primary-flux initial
  condition and the bin arithmetic of `set_single_primary_particle` are left out
  as foreign or floating-point numerics. Only the kernel choice and the nucleon
  split are modelled.
- Progress bars, timing, `print` and debug output are not modelled.
- `MCEqRun.constructor` does not take an observer list. `__init__` calls
  `set_obs_particles` (line 105) before the particle list exists (lines 115-116),
  so a non-empty list there cannot succeed. The constructor also assumes the
  interaction model is set. The atmosphere may be missing, and then no path is
  cached. `delay_pmod_init` is not modelled.
- The atmosphere is a profile together with its zenith angle. `set_atm_model`
  is not modelled, and a changed angle comes with the profile the model computes
  for it.
- KeyErrors inside routing are excluded by the constructor's precondition. These
  are a missing daughter, secondary or alias species, or D+. The precondition also
  requires decay chains to end, witnessed by a ghost rank.
- Chains.Ranked: asks every decay edge of the catalog to rank down, although
  `_follow_chains` (MCEq/core.py:803-810) recurses only through mixed daughters.
  A catalog with a cycle through an unmixed daughter is outside the model.
- `calculate_mixing_energy` (MCEq/core.py:244-246) is not modelled. Whether a
  species is mixed or a resonance is an input of its record.
- `lidx()` and `uidx()` belong to the particle class, which is not part of this
  model. Particles.RangeOf takes the block `[i*d, (i+1)*d)` of the species with
  index `i`, and the empty range `[0, 0)` for a species without one. So routing
  into a resonance daughter that has no alias adds an empty contribution.
- Particles.SortByECritCorrect: proves sortedness and permutation, not the
  stability of Python's `sort`.
- Aliases.ParseInt: accepts an optional sign and ASCII decimal digits only, not
  the surrounding whitespace or other Unicode digits that `int()` also accepts.
- Run.MCEqRun.SetObsParticles: a failed conversion leaves the observer ids
  unchanged. The source leaves a partly filled list behind when the KeyError
  escapes. `set_obs_particles(None)` rebuilds the tables, which is the corrected
  behaviour (see Findings).
- Run.MCEqRun.CalculateIntegrationPath: follows the corrected cache of the
  Findings table (rows one and three), not the as-written one. It compares grids
  exactly, without broadcasting. The path is computed in exact reals.
- Integration.ValidProfile: requires `max_ldec > 0`, and so does the
  constructor Run.MCEqRun.constructor. In the source, `max_ldec == 0` raises
  ZeroDivisionError at the first step (MCEq/core.py:1000). A negative
  `max_ldec` gives negative steps, so `while X < X_surf` never ends. Neither
  case is modelled.
- Integration.GridsMatch: follows the numpy of the Python 2 era. There a grid
  compared with `None` is unequal and grids of lengths that do not broadcast
  are unequal. Later numpy versions compare with `None` element by element, or
  raise for such lengths.
- `_zero_mat`, `_init_Lambda_int`, `_init_Lambda_dec` and `solve` are numeric
  glue and are not modelled.

## Findings

| source | as written | input that shows it | evidently intended | confidence | as-written member | corrected member |
|---|---|---|---|---|---|---|
| MCEq/core.py:977-980 | `int_grid` and `grid_var` are stored before `NotImplementedError` is raised for a grid variable other than 'X' | a path cached for `(None, 'X')`, then two calls with `([1.0], 'Y')`: the first raises, the second hits the cache and silently returns the path for `(None, 'X')` | reject an unsupported grid variable before touching the cache | not executed | Integration.AsWrittenServesStalePath | Integration.CalcCorrect |
| MCEq/core.py:510-512 | `set_obs_particles(None)` clears `obs_ids` and returns before `_init_alias_tables`, so the old observer table stays | observers `[411]` (D+ present), then `None`: `obs_ids` is None but (411, 14) still routes to 7314 | rebuild the tables and matrices for `None` too, as the docstring promises | not executed | Aliases.SetObsAsWrittenKeepsStaleTable | Aliases.SetObsCurrent |
| MCEq/core.py:973-974 | the cache test `np.alltrue(int_grid == self.int_grid)` broadcasts a grid of one depth against a longer grid | a path cached for `([5.0], 'X')` with `X_surf` above 5, then a call with `([5.0, 5.0], 'X')`: it hits the cache and returns a path with one snapshot where two depths were requested | compare the grids exactly (`np.array_equal`) | not executed | Integration.AsWrittenBroadcastHit | Integration.CalcCorrect |
