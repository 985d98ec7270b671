# MCIK micro-cause kernels, in Dafny

MCIK (micro-cause influence kernels) studies how a small poke to one site of a
lattice spreads through the lattice's dynamics. A first-order kernel
`K_a = Y_a - Y_base` is the change a single poke `a` causes. A second-order
kernel `H_ab = (Y_ab - Y_base) - (K_a + K_b)` is the synergy of two pokes. The
responses `Y` are temporal integrals: each site's state summed over every time
step. This project models the computational core of the repository:

- **C++ `Lattice1D`** (`MicCauseKernel`, over `Ring`): a ring of at least three
  sites. One step maps each site to `tanh(alpha*g[i] + beta*(g[left] + g[right]))`.
  `derive` fills a dense N x N kernel with central differences at
  `eps = sqrt(2^-52)`.
- **Python `McikLatticeSimulator`** (`LatticeSim`, over `History` and
  `Sensitivity`):
  - 1-D or 2-D lattices, stored flat and row-major;
  - numpy pokes, with index wrap and bounds errors;
  - the history cube and its temporal integral;
  - the K and H estimators;
  - the `tanh_update_1d` and `tanh_update_2d` rules (`Ring`).
- **The two real-estate scripts**:
  - `SecondOrder` is the four-run synergy script;
  - `Propagation` is the single-poke spacetime heatmap.
- **The hill-climbing controller** (`Controller`, `PyController`):
  single-lever probes ("K") and paired probes adopted on positive synergy
  ("K+H"), in C++ and in Python.
- **The ASCII frame metrics** (`TorusMetrics`, `PyMetrics`):
  - character density;
  - gradient-based quality;
  - similarity;
  - the moving average.
- **The C++ command-line front end** (`TorusCli`, `Ramps`):
  - argument scan and clamps;
  - ramp expansion;
  - frame timing.

  The Python ramp builder is in `PyTorus`.
- **The phase-change-material enthalpy model** (`Pcm`):
  - the enthalpy to temperature and melt-fraction conversion;
  - the lattice class with its perturbation;
  - the padded heat-flow step.

Floating-point numbers are modelled as `real`. `tanh`, `sqrt`, `std::stod` and
`std::stoi` are passed in as function parameters (`squash`, `root`, `toReal`,
`toInt`). Wherever a property needs something from them, it is stated as a
precondition (for example `squash(0.0) == 0.0`, or the identity for linear
dynamics). Exceptions become `Result`/`Status` values that carry the exception
kind.

Every state-changing object is a class whose methods are proved against
specification functions:
- `Lattice1D` keeps its kernel in an `array2`;
- `McikLatticeSimulator` keeps its state in `Option`/`seq` fields;
- `PCMLattice` keeps its state in `seq` fields.

The loops of the estimators, the controllers, the metrics, the argument scan
and the scripts are methods with invariants, proved equal to those functions.

## Model

| member | source | states |
|---|---|---|
| MicCauseKernel.Bump | modules/cpp/include/mcik/mic_cause_kernel.hpp:94-97 | the perturbed copy moves only site j, by exactly d |
| MicCauseKernel.FdSparse | modules/cpp/include/mcik/mic_cause_kernel.hpp:90-104 | a kernel entry (i, j) is exactly zero unless j is i or a ring neighbour of i, for any squashing function |
| MicCauseKernel.FdDecoupled | modules/cpp/include/mcik/mic_cause_kernel.hpp:90-104 | with beta = 0 every off-diagonal kernel entry is zero |
| MicCauseKernel.FdLinear | modules/cpp/include/mcik/mic_cause_kernel.hpp:90-104 | with the identity in place of tanh, entry (i, j) is alpha on the diagonal plus beta for each side on which j is i's neighbour (the central difference is exact) |
| MicCauseKernel.Lattice1D.constructor | modules/cpp/include/mcik/mic_cause_kernel.hpp:32-41 | a new lattice holds the given size and weights, a zero state and a zero kernel |
| MicCauseKernel.Lattice1D.Create | modules/cpp/include/mcik/mic_cause_kernel.hpp:32-41 | construction fails with invalid_argument exactly when size < 3; otherwise the lattice is zero-initialised |
| MicCauseKernel.Lattice1D.Reset | modules/cpp/include/mcik/mic_cause_kernel.hpp:48-53 | a vector of the wrong length is invalid_argument and changes nothing; otherwise it becomes the state; the kernel is untouched |
| MicCauseKernel.Lattice1D.ApplyRule | modules/cpp/include/mcik/mic_cause_kernel.hpp:79-88 | the loop computes the ring step of its input |
| MicCauseKernel.Lattice1D.Forward | modules/cpp/include/mcik/mic_cause_kernel.hpp:55 | the state advances by one ring step; the kernel is untouched |
| MicCauseKernel.Lattice1D.ForwardSteps | modules/cpp/include/mcik/mic_cause_kernel.hpp:57-61 | the state advances by `steps` ring steps |
| MicCauseKernel.Lattice1D.Derive | modules/cpp/include/mcik/mic_cause_kernel.hpp:90-104 | every kernel entry is the central difference of the step, so it is zero off the ring neighbourhood and zero off the diagonal when beta = 0; the state is untouched |
| MicCauseKernel.Lattice1D.Column | modules/cpp/include/mcik/mic_cause_kernel.hpp:67-76 | an index >= size is out_of_range; otherwise the result is kernel column `index`, row by row |
| Ring.Step | modules/cpp/include/mcik/mic_cause_kernel.hpp:79-88 | the next ring state has one site per site |
| Ring.StepRuleKeepsLength | modules/python/mcik/lattice.py:640-649 | the 1-D rule maps a lattice of n sites to n sites |
| Ring.RightWraps | modules/cpp/include/mcik/mic_cause_kernel.hpp:83 | the right neighbour is i + 1, wrapping to 0 at the end |
| Ring.NeighbourSymmetry | modules/cpp/include/mcik/mic_cause_kernel.hpp:82-83 | j is i, i's left or i's right neighbour exactly when i and j are adjacent on the ring, a symmetric relation |
| Ring.StepLocal | modules/cpp/include/mcik/mic_cause_kernel.hpp:81-85 | site i of the next state depends only on sites i, left(i) and right(i) |
| Ring.StepUniform | modules/cpp/include/mcik/mic_cause_kernel.hpp:81-85 | a uniform state c steps to the uniform state squash((alpha + 2 beta) c) |
| Ring.StepZero | modules/cpp/include/mcik/mic_cause_kernel.hpp:81-85 | when squash(0) = 0, the zero state is a fixed point |
| Ring.RollIndices | modules/python/mcik/lattice.py:646-647 | numpy's roll index arithmetic (i - 1) mod n and (i + 1) mod n gives the C++ left and right neighbours |
| Ring.RollNeighbours | modules/python/mcik/lattice.py:646-647 | `roll(g, 1)` is every site's left neighbour and `roll(g, -1)` its right neighbour |
| Ring.RollDrives | modules/python/mcik/lattice.py:648 | `alpha*g + beta*(roll(g,1) + roll(g,-1))` is the C++ pre-tanh drive of every site |
| Ring.SumScale | modules/python/mcik/lattice.py:648 | scaling a vector scales its sum |
| Ring.RollUpdate | modules/python/mcik/lattice.py:640-649 | `tanh_update_1d` computes exactly the C++ `apply_rule` step |
| Ring.Update2D | modules/python/mcik/lattice.py:651-667 | the 2-D rule keeps the number of sites |
| Ring.Drive2DUniform | modules/python/mcik/lattice.py:657-665 | on a uniform grid the four-neighbour average is c and the drive is (alpha + beta) c |
| Ring.Update2DUniform | modules/python/mcik/lattice.py:651-667 | a uniform grid c steps to the uniform grid squash((alpha + beta) c) |
| History.IterateLength | modules/cpp/include/mcik/mic_cause_kernel.hpp:57-61 | iterating a length-preserving rule keeps the lattice size |
| History.Orbit | modules/python/mcik/lattice.py:113-121 | the history has one state per time step; it starts at the initial state and each state is the rule applied to the one before |
| History.OrbitShape | modules/python/mcik/lattice.py:108-121 | every state of the history has the lattice's size when the rule keeps lengths |
| History.OrbitSnoc | modules/python/mcik/lattice.py:118-121 | one more time step appends the rule applied to the last state |
| History.SiteSeries | modules/python/mcik/lattice.py:152 | a site's time series has one value per time step |
| History.TimeSum | modules/python/mcik/lattice.py:149-152 | the temporal integral has one entry per site, the sum of that site's values over time |
| History.ZeroHistory | modules/python/mcik/lattice.py:149-152 | an all-zero history integrates to zero |
| History.TimeSumAdd | modules/python/mcik/lattice.py:149-152 | the integral of a sitewise sum of histories is the sum of their integrals |
| Sensitivity.FirstOrder | modules/python/mcik/lattice.py:229-234 | `Y_a = Y_base + K_a` at every site |
| Sensitivity.Synergy | modules/python/mcik/lattice.py:287-292 | `K_a + K_b + H_ab = Y_ab - Y_base`: the synergy is exactly what the linear sum misses |
| Sensitivity.SynergySymmetric | modules/python/mcik/lattice.py:287-292 | H does not depend on the order of the two single responses |
| Sensitivity.SynergyAt | experiments/real_estate/1dlatticevis2ndorder.py:75-86 | `H_ab[i] = Y_ab[i] - Y_a[i] - Y_b[i] + Y_base[i]` |
| Sensitivity.SynergyOfOnePoke | modules/python/mcik/lattice.py:261-262 | when the joint run equals the single run, H = -K |
| LatticeSim.ProductRank | modules/python/mcik/lattice.py:108 | the number of sites of a rank-1 or rank-2 lattice is the product of its dimensions |
| LatticeSim.Coord | modules/python/mcik/lattice.py:86 | each coordinate of a flat row-major index is inside its dimension |
| LatticeSim.Wrap | modules/python/mcik/lattice.py:86 | numpy maps an index in [-n, n) into [0, n) by adding n to a negative index |
| LatticeSim.AddPoke | modules/python/mcik/lattice.py:85-89 | a poke whose position does not fit is IndexError; otherwise every site it reaches gains the value and the others keep theirs |
| LatticeSim.PokeOne | modules/python/mcik/lattice.py:80-89 | a poke succeeds exactly when its rank matches (where checked) and it fits; the lattice keeps its size |
| LatticeSim.ApplyPokes | modules/python/mcik/lattice.py:80-89 | applying all pokes keeps the lattice size |
| LatticeSim.ApplyPokesOk | modules/python/mcik/lattice.py:80-89 | all pokes succeed exactly when each one is accepted; without the rank check the only failure is IndexError |
| LatticeSim.ApplyPokesPrefixErr | modules/python/mcik/lattice.py:80-89 | the first failing poke decides the result; later pokes are never applied |
| LatticeSim.ApplyPokesTotal | modules/python/mcik/lattice.py:80-89 | after successful pokes every site holds its start value plus the total of the pokes that reach it |
| LatticeSim.ApplyPair | modules/python/mcik/lattice.py:283 | two pokes apply one after the other |
| LatticeSim.PokeOrder | modules/python/mcik/lattice.py:174-179 | the order in which two pokes are applied does not matter (`+=` commutes) |
| LatticeSim.Base | modules/python/mcik/lattice.py:163-168 | a kernel run starts from the stored initial state, or from zeros when there is none |
| LatticeSim.Response | modules/python/mcik/lattice.py:98-195 | a kernel run succeeds exactly when time_steps > 0, the lattice has sites and every poke fits; the failure is IndexError for a poke out of bounds or zero steps and ValueError for negative steps or no sites; a result has one value per site |
| LatticeSim.KKernel | modules/python/mcik/lattice.py:198-234 | the K estimate succeeds exactly when time_steps > 0, the lattice has sites and the poke fits |
| LatticeSim.PairPokes | modules/python/mcik/lattice.py:283 | the joint-poke dictionary holds one entry when the two positions coincide and two otherwise |
| LatticeSim.HKernel | modules/python/mcik/lattice.py:237-299 | the H estimate succeeds exactly when time_steps > 0, the lattice has sites and both pokes fit |
| LatticeSim.HKernelSwap | modules/python/mcik/lattice.py:237-299 | swapping a and b swaps K_a and K_b and leaves H_ab unchanged |
| LatticeSim.HKernelSamePosition | modules/python/mcik/lattice.py:261-262 | for a = b, K_a = K_b and H_ab = -K_a |
| LatticeSim.KKernelOfZeroPoke | modules/python/mcik/lattice.py:198-234 | a zero poke gives an all-zero K kernel |
| LatticeSim.Simulator.constructor | modules/python/mcik/lattice.py:17-45 | a new simulator holds the given dimensions, steps and rule, with no state, pokes or cube |
| LatticeSim.Simulator.Create | modules/python/mcik/lattice.py:30-45 | a rank other than 1 or 2 is ValueError; otherwise the simulator starts empty |
| LatticeSim.PokeLoop | modules/python/mcik/lattice.py:79-89 | the poke loop gives the pokes applied in order, stopping at the first rank mismatch (ValueError) or out-of-bounds index (IndexError) |
| LatticeSim.Simulator.SetInitialState | modules/python/mcik/lattice.py:53-95 | a shape mismatch is ValueError and changes nothing; otherwise the base state (zeros when absent), the pokes and the poked state (or the poke error) are stored and the cube is cleared; on a lattice without sites the poked state is stored, then ValueError leaves the cube |
| LatticeSim.Simulator.RunSimulation | modules/python/mcik/lattice.py:98-128 | without a poked state it is RuntimeError; negative steps are ValueError, zero steps IndexError; otherwise the cube is the rule's history from the poked state, returned unless the lattice has no sites (ValueError after the cube is stored) |
| LatticeSim.Simulator.TemporalIntegral | modules/python/mcik/lattice.py:140-154 | without a cube it is RuntimeError, on a lattice without sites ValueError; otherwise entry i is the sum over time of site i |
| LatticeSim.Simulator.RunForKernel | modules/python/mcik/lattice.py:158-195 | the run's result is the response from the base state to these pokes; stored pokes and base state are kept; a rejected poke changes nothing else, a failed simulation leaves the poked state and the cube it allocated, a success clears both |
| LatticeSim.Simulator.EstimateKKernel | modules/python/mcik/lattice.py:198-234 | the result is the K kernel `Y_a - Y_base` from the stored base state; the poked state and cube end cleared when steps and sites are positive, and otherwise as the failed baseline run leaves them |
| LatticeSim.Simulator.EstimateHKernel | modules/python/mcik/lattice.py:237-299 | the result is (K_a, K_b, H_ab) from the four runs; the poked state and cube end as for the K estimate |
| SecondOrder.Start | experiments/real_estate/1dlatticevis2ndorder.py:18-23 | the poked state exists exactly when every position is a valid numpy index (otherwise IndexError) and has 100 sites |
| SecondOrder.StartUnpoked | experiments/real_estate/1dlatticevis2ndorder.py:19-23 | a site no poke writes stays 0 |
| SecondOrder.StartOverwrites | experiments/real_estate/1dlatticevis2ndorder.py:22-23 | a site holds the value of the last poke that writes it (assignment, not addition) |
| SecondOrder.Accumulated | experiments/real_estate/1dlatticevis2ndorder.py:10-46 | the accumulated response exists exactly when the pokes are valid and has one entry per site |
| SecondOrder.RunSimulation | experiments/real_estate/1dlatticevis2ndorder.py:10-46 | the script's loop returns the temporal integral of the 200-step history from the poked state |
| SecondOrder.ZeroOrbit | experiments/real_estate/1dlatticevis2ndorder.py:29-44 | when squash(0) = 0, the unpoked lattice stays zero at every step |
| SecondOrder.NoPokesNoResponse | experiments/real_estate/1dlatticevis2ndorder.py:56-57 | when squash(0) = 0, the baseline response Y_base is all zeros |
| SecondOrder.Analyse | experiments/real_estate/1dlatticevis2ndorder.py:73-86 | K_a, K_b are the first-order kernels, and linear sum plus H equals the actual change, H being the synergy |
| SecondOrder.Script | experiments/real_estate/1dlatticevis2ndorder.py:48-86 | the four runs at the script's positions 33 and 66 always succeed |
| SecondOrder.KernelIsResponse | experiments/real_estate/1dlatticevis2ndorder.py:73-76 | when squash(0) = 0, each K kernel is that poke's own response |
| SecondOrder.StepLinear | experiments/real_estate/1dlatticevis2ndorder.py:31-38 | with the identity in place of tanh, one step is additive |
| SecondOrder.IterateLinear | experiments/real_estate/1dlatticevis2ndorder.py:29-44 | with the identity in place of tanh, any number of steps is additive |
| SecondOrder.StartSplits | experiments/real_estate/1dlatticevis2ndorder.py:66-69 | poking two distinct sites gives the sum of the two single-poke states |
| SecondOrder.NoSynergyWhenLinear | experiments/real_estate/1dlatticevis2ndorder.py:84-86 | with the identity in place of tanh, H_ab is zero everywhere: synergy comes only from the nonlinearity |
| Propagation.Initial | experiments/real_estate/1dlatticevisualization.py:36-41 | the start state is 1.0 at the centre site 50 and 0 elsewhere |
| Propagation.Spacetime | experiments/real_estate/1dlatticevisualization.py:43-56 | the history has 200 states of 100 sites, starts at the initial state and each state is the ring step of the previous one |
| Propagation.SetColumn | experiments/real_estate/1dlatticevisualization.py:53 | column t of the heatmap becomes the state and every other cell is unchanged |
| Propagation.Row | experiments/real_estate/1dlatticevisualization.py:60 | a heatmap row has one value per time step |
| Propagation.TemporalIntegral | experiments/real_estate/1dlatticevisualization.py:60 | the integral has one entry per site, the sum of that site's row |
| Propagation.Propagate | experiments/real_estate/1dlatticevisualization.py:33-60 | the 100 x 200 heatmap holds site i at time t of the history in cell (i, t), and the integral is the history's temporal integral |
| Propagation.AgreesWithSecondOrder | experiments/real_estate/1dlatticevisualization.py:36-60 | the single-poke heatmap's integral is the second-order script's response to the same poke |
| Controller.ClampReal | experiments/ascii_torus/cpp/mcik_controller.hpp:21-29 | the clamped value lies in [lo, hi]; it is lo below the range, hi above it and the value itself inside |
| Controller.ClampInt | experiments/ascii_torus/cpp/mcik_controller.hpp:21-29 | the same for integer levers |
| Controller.ClampParams | experiments/ascii_torus/cpp/mcik_controller.hpp:21-29 | clamped parameters are in range and in-range parameters are unchanged |
| Controller.ClampIdempotent | experiments/ascii_torus/cpp/mcik_controller.hpp:21-29 | clamping twice is clamping once |
| Controller.Apply | experiments/ascii_torus/cpp/mcik_controller.hpp:52-77 | each probe moves only its own lever |
| Controller.Probe | experiments/ascii_torus/cpp/mcik_controller.hpp:47-51 | every probe is in range after the clamp |
| Controller.FoldKSnoc | experiments/ascii_torus/cpp/mcik_controller.hpp:47-77 | probing one more lever is one more `try_update` on the best so far |
| Controller.TryUpdateKeeps | experiments/ascii_torus/cpp/mcik_controller.hpp:47-51 | `try_update` never lowers the best score, leaves it at least the clamped probe's score, and either keeps the best or adopts the probe with a strictly higher score |
| Controller.FoldKScore | experiments/ascii_torus/cpp/mcik_controller.hpp:39-80 | the K suggestion carries its own score and never scores below the current parameters |
| Controller.FoldKBeatsProbe | experiments/ascii_torus/cpp/mcik_controller.hpp:39-80 | the K suggestion scores at least as well as every probed lever |
| Controller.Adopted | experiments/ascii_torus/cpp/mcik_controller.hpp:39-80 | the index of the adopted probe is -1 (none) or a valid position in the probe order |
| Controller.FoldKEarliest | experiments/ascii_torus/cpp/mcik_controller.hpp:39-80 | the K suggestion is the current parameters when no probe is adopted, and otherwise the adopted probe, which strictly beats the current parameters and every earlier probe |
| Controller.PairProbe | experiments/ascii_torus/cpp/mcik_controller.hpp:91-98 | a pair probe is in range |
| Controller.FoldKHScore | experiments/ascii_torus/cpp/mcik_controller.hpp:82-128 | the KH suggestion carries its own score and never scores below the K suggestion; mode "K" keeps it, mode "K+H" strictly beats it |
| Controller.PairsLast | experiments/ascii_torus/cpp/mcik_controller.hpp:91-125 | trying a non-empty list of pairs is trying its last pair after the others |
| Controller.PairsAdopted | experiments/ascii_torus/cpp/mcik_controller.hpp:91-107 | a choice that differs from the starting one is the pair probe of a tried pair with positive synergy |
| Controller.TryPairKeeps | experiments/ascii_torus/cpp/mcik_controller.hpp:91-107 | `try_pair` never lowers the best score, leaves it at least the pair probe's score when the synergy is positive, and either keeps the choice or adopts that pair probe with mode "K+H" |
| Controller.PairsBeat | experiments/ascii_torus/cpp/mcik_controller.hpp:91-125 | after the pairs, the choice scores at least as well as every tried pair of positive synergy |
| Controller.Try | experiments/ascii_torus/cpp/mcik_controller.hpp:47-51 | `try_update` returns the clamped probe when it scores strictly better, so the best score never drops |
| Controller.ProbeLever | experiments/ascii_torus/cpp/mcik_controller.hpp:52-77 | one probe extends the K search by one lever |
| Controller.SuggestStepK | experiments/ascii_torus/cpp/mcik_controller.hpp:39-80 | the loop returns the K search's parameters with mode "K" |
| Controller.FoldKHSnoc | experiments/ascii_torus/cpp/mcik_controller.hpp:91-125 | trying one more pair is one more `try_pair` on the choice so far |
| Controller.SuggestStepKH | experiments/ascii_torus/cpp/mcik_controller.hpp:82-128 | the three pairs in order give the KH search's parameters and mode |
| Controller.SuggestStep | experiments/ascii_torus/cpp/mcik_controller.hpp:130-134 | the paired search with the default deltas when H is enabled, the K search otherwise |
| PyController.PyClamp | modules/python/mcik/experiments/ascii_torus/controller.py:14-21 | the nested `max`/`min` clamp is in range and equals the C++ `std::clamp` |
| PyController.PyTry | modules/python/mcik/experiments/ascii_torus/controller.py:29-35 | the Python `try_update` is the C++ one |
| PyController.PyProbeLever | modules/python/mcik/experiments/ascii_torus/controller.py:29-35 | one Python probe extends the K search by one lever |
| PyController.PyProbes | modules/python/mcik/experiments/ascii_torus/controller.py:24-53 | the ten probes give the K search's best candidate and score |
| PyController.PySuggestStepK | modules/python/mcik/experiments/ascii_torus/controller.py:24-55 | the K search's parameters with mode "K" |
| PyController.PyTryPair | modules/python/mcik/experiments/ascii_torus/controller.py:62-74 | the Python `try_pair` is the C++ one |
| PyController.PyPairStep | modules/python/mcik/experiments/ascii_torus/controller.py:62-97 | one Python `try_pair` call extends the paired search by one pair |
| PyController.PySuggestStepKH | modules/python/mcik/experiments/ascii_torus/controller.py:58-99 | the same parameters as the C++ paired search, with mode always "K+H" |
| PyController.PySuggestStep | modules/python/mcik/experiments/ascii_torus/controller.py:102-103 | the paired search when `use_h`, the K search otherwise |
| PyController.PortsAgree | modules/python/mcik/experiments/ascii_torus/controller.py:99 | where the C++ paired search reports "K" its parameters are the K suggestion, so the ports differ only in the label |
| TorusMetrics.Clamp01 | modules/cpp/include/mcik/experiments/ascii_torus/metrics.hpp:15 | the value clamped to [0, 1] |
| TorusMetrics.RampPosFinds | modules/cpp/include/mcik/experiments/ascii_torus/metrics.hpp:10-12 | the ramp lookup finds a character exactly when it is on the ramp, at its own position |
| TorusMetrics.CodeDensity | modules/cpp/include/mcik/experiments/ascii_torus/metrics.hpp:13-15 | the fallback density is in [0, 1]; codes up to the blank give 0 and codes from `~` up give 1 |
| TorusMetrics.RampDensity | modules/cpp/include/mcik/experiments/ascii_torus/metrics.hpp:8-16 | ramp character i has density i/9 (blank 0, `@` 1); others fall back to the code |
| TorusMetrics.CharDensity | modules/cpp/include/mcik/experiments/ascii_torus/metrics.hpp:8-16 | the loop computes the density |
| TorusMetrics.Quality | modules/cpp/include/mcik/experiments/ascii_torus/metrics.hpp:18-41 | quality is in [0, 1] and is 0 when either side is below 3 |
| TorusMetrics.CellGradientFlat | modules/cpp/include/mcik/experiments/ascii_torus/metrics.hpp:25-31 | a cell whose opposite neighbours match has gradient sqrt(0) |
| TorusMetrics.RowSumFlat | modules/cpp/include/mcik/experiments/ascii_torus/metrics.hpp:23-34 | a flat row contributes 0 |
| TorusMetrics.RowsSumFlat | modules/cpp/include/mcik/experiments/ascii_torus/metrics.hpp:22-35 | a flat frame accumulates 0 |
| TorusMetrics.QualityOfFlatFrame | modules/cpp/include/mcik/experiments/ascii_torus/metrics.hpp:18-41 | a frame of one repeated character has quality 0 |
| TorusMetrics.Gradient | modules/cpp/include/mcik/experiments/ascii_torus/metrics.hpp:25-31 | computes the cell's central-difference gradient length |
| TorusMetrics.AccumulateRow | modules/cpp/include/mcik/experiments/ascii_torus/metrics.hpp:23-34 | the inner loop adds the row's gradient sum and w - 2 cells |
| TorusMetrics.VisitRow | modules/cpp/include/mcik/experiments/ascii_torus/metrics.hpp:22-35 | one pass of the outer loop adds row y's gradients and w - 2 cells and moves to row y + 1 |
| TorusMetrics.QualityIsMean | modules/cpp/include/mcik/experiments/ascii_torus/metrics.hpp:36-40 | after every inner row, the count is (h - 2)(w - 2) > 0 and the quality is the clamped mean gradient |
| TorusMetrics.EstimateAsciiQuality | modules/cpp/include/mcik/experiments/ascii_torus/metrics.hpp:18-41 | the loops compute the quality |
| TorusMetrics.SqErrSum | modules/cpp/include/mcik/experiments/ascii_torus/metrics.hpp:50-55 | the squared density error is non-negative |
| TorusMetrics.Similarity | modules/cpp/include/mcik/experiments/ascii_torus/metrics.hpp:43-62 | similarity is in [0, 1] and is 0 for mismatched sizes or an empty frame |
| TorusMetrics.SqErrSumSelf | modules/cpp/include/mcik/experiments/ascii_torus/metrics.hpp:50-55 | a frame has no error against itself |
| TorusMetrics.SqErrSumSymmetric | modules/cpp/include/mcik/experiments/ascii_torus/metrics.hpp:50-55 | the error does not depend on which frame is the reference |
| TorusMetrics.SimilarityIdentical | modules/cpp/include/mcik/experiments/ascii_torus/metrics.hpp:43-62 | a non-empty w x h frame is fully similar (1) to itself |
| TorusMetrics.SimilaritySymmetric | modules/cpp/include/mcik/experiments/ascii_torus/metrics.hpp:43-62 | similarity is symmetric |
| TorusMetrics.EstimateAsciiSimilarity | modules/cpp/include/mcik/experiments/ascii_torus/metrics.hpp:43-62 | the loop computes the similarity |
| TorusMetrics.MovingAverage | modules/cpp/include/mcik/experiments/ascii_torus/metrics.hpp:64-66 | alpha 0 keeps the previous value, alpha 1 takes the current one, and the step is alpha times the difference |
| TorusMetrics.MovingAverageBetween | modules/cpp/include/mcik/experiments/ascii_torus/metrics.hpp:64-66 | for alpha in [0, 1] the average lies between the previous and current values |
| PyMetrics.ClampCode | modules/python/mcik/experiments/ascii_torus/metrics.py:6 | the code clamped to [32, 126] |
| PyMetrics.PyCharDensity | modules/python/mcik/experiments/ascii_torus/metrics.py:1-7 | a density in [0, 1] |
| PyMetrics.ClampCodeAgrees | modules/python/mcik/experiments/ascii_torus/metrics.py:5-7 | clamping the code before normalising equals clamping the normalised code |
| PyMetrics.PyDensityAgrees | modules/python/mcik/experiments/ascii_torus/metrics.py:1-7 | the Python density equals the C++ density for every character |
| PyMetrics.PyAccumulateRow | modules/python/mcik/experiments/ascii_torus/metrics.py:16-26 | the inner loop adds the row's gradient sum and w - 2 cells |
| PyMetrics.PyVisitRow | modules/python/mcik/experiments/ascii_torus/metrics.py:15-26 | one pass of the Python outer loop adds row y's gradients and w - 2 cells |
| PyMetrics.PyEstimateAsciiQuality | modules/python/mcik/experiments/ascii_torus/metrics.py:10-30 | the Python quality equals the C++ quality and is in [0, 1] |
| Ramps.PickIndex | experiments/ascii_torus/cpp/ascii_torus.cpp:129-135 | the picked base index is in range and is the index nearest to i (len - 1)/(n - 1), a tie going up |
| Ramps.RoundIndex | experiments/ascii_torus/cpp/ascii_torus.cpp:130-135 | the rounded index is at most the last one and within half a step of num/d |
| Ramps.Resampled | experiments/ascii_torus/cpp/ascii_torus.cpp:126-138 | a resampled ramp has the requested length |
| Ramps.ResampledEnds | experiments/ascii_torus/cpp/ascii_torus.cpp:128-137 | every character comes from the base; the first is the base's first and the last the base's last |
| Ramps.ResampledIdentity | experiments/ascii_torus/cpp/ascii_torus.cpp:125 | resampling to the base's own length reproduces it, so the early return agrees with the loop |
| Ramps.PickMonotone | experiments/ascii_torus/cpp/ascii_torus.cpp:129-135 | later output positions never read earlier base positions |
| Ramps.Resample | experiments/ascii_torus/cpp/ascii_torus.cpp:124-138 | the loop (or the early return) produces the resampled ramp |
| TorusCli.FlagOf | experiments/ascii_torus/cpp/ascii_torus.cpp:89-104 | only arguments starting with `--` name a flag |
| TorusCli.AssignWritesOneField | experiments/ascii_torus/cpp/ascii_torus.cpp:86-104 | a flag writes its own field with the converted value and no other |
| TorusCli.ScanProvenance | experiments/ascii_torus/cpp/ascii_torus.cpp:84-105 | after the scan each field holds its starting value or the conversion of the token after one of its flags |
| TorusCli.NoFlagsNoChange | experiments/ascii_torus/cpp/ascii_torus.cpp:84-105 | arguments that name no flag leave the settings unchanged |
| TorusCli.MaxReal | experiments/ascii_torus/cpp/ascii_torus.cpp:113-117 | `std::max` is the larger argument |
| TorusCli.Sanitize | experiments/ascii_torus/cpp/ascii_torus.cpp:106-119 | the clamps yield sane settings: R >= 0.1, r as clamped or reset to max(0.05, 0.4 R), weights kept unless their sum is <= 0 (then 0.5 each) |
| TorusCli.SanitizeFixesSane | experiments/ascii_torus/cpp/ascii_torus.cpp:106-119 | settings are unchanged by the clamps exactly when sane, and the clamps are idempotent |
| TorusCli.ParseArgs | experiments/ascii_torus/cpp/ascii_torus.cpp:83-120 | the loop computes the scan from argv[1] and then the clamps, so the result is sane |
| TorusCli.MakeRamp | experiments/ascii_torus/cpp/ascii_torus.cpp:122-139 | corrected `make_ramp`: a negative size is length_error; otherwise the ten-shade ramp (`ShadeRamp`) resampled to the size |
| TorusCli.MakeRampAsWritten | experiments/ascii_torus/cpp/ascii_torus.cpp:122-139 | the same over the 44-character literal |
| TorusCli.WrittenRampEndsOffScale | experiments/ascii_torus/cpp/ascii_torus.cpp:66 | the literal's default 12-character ramp ends on 'u', which is not a shade; the ten-shade ramp ends on '@' |
| TorusCli.DefaultRampShades | experiments/ascii_torus/cpp/ascii_torus.cpp:110 | for every allowed ramp size 8..16 the ramp is made of shades in non-decreasing density from blank to '@' |
| TorusCli.MeasureFrameTime | experiments/ascii_torus/cpp/ascii_torus.cpp:152-158 | fps is 1000/ms for a positive duration and 0 otherwise, never negative |
| PyTorus.BuildRamp | experiments/ascii_torus/python/ascii_torus.py:36-49 | sizes up to 1 give the first character; larger sizes give the C++ resampling of the ten-shade ramp, from blank to '@' |
| Pcm.ThawPhases | docs/mcik-tensf-pcm-test1.py:45-57 | phase in [0, 1]; solid below sh mp, at the melting point while melting, fully liquid above |
| Pcm.ThawConservesHeat | docs/mcik-tensf-pcm-test1.py:45-57 | sh T + lh phase equals the enthalpy exactly, in every phase |
| Pcm.ThawContinuous | docs/mcik-tensf-pcm-test1.py:45-57 | the solid and liquid formulas meet the plateau at the melting point |
| Pcm.ThawMonotone | docs/mcik-tensf-pcm-test1.py:45-57 | more enthalpy never lowers temperature or melt fraction |
| Pcm.StaysSolid | docs/mcik-tensf-pcm-test1.py:45-48 | two solid nodes: the one with more enthalpy is no colder, both at phase 0 |
| Pcm.SolidToMelting | docs/mcik-tensf-pcm-test1.py:45-52 | a solid node is no warmer and no more molten than a melting one with more enthalpy |
| Pcm.SolidToLiquid | docs/mcik-tensf-pcm-test1.py:45-56 | a solid node is no warmer and no more molten than a liquid one with more enthalpy |
| Pcm.StaysMelting | docs/mcik-tensf-pcm-test1.py:49-52 | two melting nodes share the melting point; more enthalpy gives a larger melt fraction |
| Pcm.MeltingToLiquid | docs/mcik-tensf-pcm-test1.py:49-56 | a melting node is no warmer and no more molten than a liquid one with more enthalpy |
| Pcm.StaysLiquid | docs/mcik-tensf-pcm-test1.py:53-56 | two liquid nodes: the one with more enthalpy is no colder, both at phase 1 |
| Pcm.InitialStateAgrees | docs/mcik-tensf-pcm-test1.py:24-30 | the initial (T0, solid) state is the conversion of sh T0 exactly when T0 <= mp |
| Pcm.Repeat | docs/mcik-tensf-pcm-test1.py:28-30 | `[x] * n` is n copies of x, and empty for negative n |
| Pcm.PcmLattice.constructor | docs/mcik-tensf-pcm-test1.py:24-30 | every node starts at enthalpy sh T0, temperature T0 and phase 0 |
| Pcm.PcmLattice.UpdateTemperatureAndPhase | docs/mcik-tensf-pcm-test1.py:32-61 | every node's temperature and phase become the conversion of its enthalpy, which is unchanged |
| Pcm.PcmLattice.ApplyPerturbation | docs/mcik-tensf-pcm-test1.py:63-75 | a valid (possibly negative) index gains sh dT enthalpy and all nodes are reconverted; an invalid one is IndexError and changes nothing |
| Pcm.PerturbationAddsHeat | docs/mcik-tensf-pcm-test1.py:65-71 | a perturbation adds exactly sh dT to the total enthalpy |
| Pcm.Padded | docs/mcik-tensf-pcm-test1.py:85 | padding adds one node at each end |
| Pcm.PaddedNeighbours | docs/mcik-tensf-pcm-test1.py:85-86 | `padded[:-2]` and `padded[2:]` are each node's left and right neighbours, an edge node standing in for its missing one |
| Pcm.HeatFlowStep | docs/mcik-tensf-pcm-test1.py:81-87 | an empty lattice is an error; otherwise node i becomes k h[i] + 0.5 k (left + right) |
| Pcm.HeatFlowEdges | docs/mcik-tensf-pcm-test1.py:85-86 | the end nodes count themselves once more in place of the missing neighbour |
| Pcm.FlowedLinear | docs/mcik-tensf-pcm-test1.py:86 | a node's flow is additive in the enthalpy |
| Pcm.HeatFlowLinear | docs/mcik-tensf-pcm-test1.py:81-87 | the heat-flow step is linear: the step of a sum is the sum of the steps |
| Pcm.FlowedUniform | docs/mcik-tensf-pcm-test1.py:86 | a node in a uniform neighbourhood c flows to 2 k c |
| Pcm.HeatFlowUniform | docs/mcik-tensf-pcm-test1.py:81-87 | a uniform lattice c steps to the uniform lattice 2 k c |

## Left out

- Floating point: every `double`, numpy `float64` and TensorFlow `float32` value is an exact real. Rounding, overflow to infinity and NaN are not modelled. This includes the division by zero when the latent heat (or the specific heat, required non-zero) is 0, and the finite-difference error of `derive` with `tanh`.
- `tanh`, `sqrt`, `std::stod` and `std::stoi` are function parameters. The exceptions `stod`/`stoi` throw on malformed text are not modelled.
- The scoring callback of the controllers is a pure function parameter. The renderer's real scoring (frame rendering, timing, fps) is not modelled.
- Rendering, drawing, terminal control, CSV logging, wall-clock reads, the Python argument parser, the plotting and animation methods of the simulator, and the scripts' plots and prints are not modelled. They are I/O.
- `MCIKKernel.compute_jacobian` (docs/mcik-tensf-pcm-test1.py:89-94) is not modelled. It is TensorFlow automatic differentiation. `Pcm.HeatFlowLinear` states the linearity that makes its Jacobian constant.
- LatticeSim.Simulator.Create: dimensions are natural numbers. The Python constructor also accepts a negative dimension (lattice.py:30). numpy then rejects every state of that shape with ValueError (`np.zeros` at lattice.py:66 and :165, the shape comparison at :69-70), so such a simulator can only fail; it is not modelled.
- The simulator's `TypeError` for a non-callable rule is not modelled: the rule is a typed function. Its `**update_params` are folded into the rule.
- Simulator pokes are a sequence of distinct-key entries. Python dictionaries cannot hold a key twice. Pokes whose key is neither an int nor a tuple are not modelled.
- `get_data_cube` is not modelled. It only returns the cube field.
- The real-estate scripts' poke dictionaries have integer keys; `SecondOrder.Pokes` holds them in dictionary order. A repeated key cannot occur in a dictionary; the model lets the later entry win.
- TorusMetrics.Quality requires the buffer to hold w x h cells when both are at least 3. With a shorter buffer the C++ code reads out of bounds (undefined behaviour) and the Python code raises IndexError.
- MicCauseKernel.Lattice1D.constructor requires size >= 3. `MicCauseKernel.Lattice1D.Create` models the `invalid_argument` thrown below that.
- PyTorus.BuildRamp: the C++ `make_ramp` gives the empty ramp for size 0 and `length_error` for a negative size. The Python `build_ramp` returns one character for every size up to 1. Both are modelled as written.
- Pcm.PcmLattice.UpdateTemperatureAndPhase requires a non-zero specific heat. Python would divide by zero (giving infinity or NaN in float32) on a solid or liquid node.
- The C++ `char` is signed. `TorusMetrics.CodeDensity` works on the character code, which reads as the `unsigned char` the code casts to for codes below 256.

## Findings

| source | as written | input that shows it | evidently intended | confidence | as-written member | corrected member |
|---|---|---|---|---|---|---|
| experiments/ascii_torus/cpp/ascii_torus.cpp:66 | `DEFAULT_RAMP` is a 44-character literal: the ten shades followed by 34 letters, though its comment says length 10 | the default `--ramp-size` 12: the resampled ramp ends on 'u' instead of '@', and the letters have no place on the density ramp | the ten-shade ramp " .:-=+*#%@", which `char_density` ranks | not executed | TorusCli.WrittenRampEndsOffScale | TorusCli.DefaultRampShades |
