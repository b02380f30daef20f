# QAP to binary quadratic model, in Dafny

This project models `create_qap_bqm(facilities, locations)` from
`quantum_annealing_sim.py` and proves what the model it builds means. The
function encodes a Quadratic Assignment Problem of size `n = len(facilities)`
as a dimod `BinaryQuadraticModel` over 0/1 variables, where
`f{i}_l{p}` = 1 means "facility i sits at location p". It also models the loop
that reads an assignment back out of the best sample.

What the builder does, in order:

1. It registers `n * n` tuple-labelled variables `(i, p)` with bias 0.
2. It adds one `add_linear_equality_constraint` with multiplier 10 and
   constant -1 per facility row, over the string-labelled variables `f{i}_l{p}`.
3. It adds one such constraint per location column.
4. For every `i != j` and `p != q`, it adds `facilities[i][j] * locations[p][q]`
   onto the pair `{f{i}_l{p}, f{j}_l{q}}`.

Files and modules:

- `sums.dfy` (`Sums`): finite sums `SumRange(k, f)` and their facts.
- `bqm.dfy` (`Bqm`): the dimod operations the builder calls.
  - The model is a value: linear biases, quadratic biases on unordered pairs,
    and an offset.
  - `BinaryQuadraticModel` is a class whose methods `AddVariable`,
    `AddQuadratic` and `AddLinearEqualityConstraint` accumulate onto its maps
    in place.
  - Each method is proved against a ghost log of accumulate operations: the
    maps always equal the log applied to the empty model.
  - Energy and bias lemmas hold for one operation, for one constraint, and for
    the operations of a whole loop (`Iterations`).
- `qap.dfy` (`Qap`): the builder.
  - `CreateQapBqm` and one method per nested loop, each with loop invariants.
  - Each loop's operations as a function (`TupleOps`, `RowConstraintOps`,
    `ColumnConstraintOps`, `ObjectiveOps`). `QapModel(F, L)` is the model
    they produce.
- `qap_energy.dfy` (`QapEnergy`): the energy of `QapModel` is the QAP
  objective plus the row and column penalties.
- `qap_solutions.dfy` (`QapSolutions`): penalties, feasibility and
  permutations.
- `qap_biases.dfy` (`QapBiases`): the exact variables and biases of `QapModel`.
- `qap_decode.dfy` (`QapDecode`): the decoding loop as written, why it fails,
  and a corrected decoder with its round trip.
- `qap_example.dfy` (`QapExample`): the 3 x 3 instance the script builds.

The code and the prose around it disagree in places. The model follows the
code:

- The docstring calls `facilities` a distance matrix and `locations` a flow
  matrix. The comment at line 38 names them the other way round.
- The code multiplies `facilities[i][j]` by `locations[p][q]`. The model uses
  exactly that product.
- The code has no dimension check, no penalty parameter (the multiplier is
  fixed at 10) and no validation step. The model has none either.

## Model

| member | source | states |
|---|---|---|
| Bqm.KeyUnordered | quantum_annealing_sim.py:48 | a pair's bias is stored under one key, whichever order the two labels come in; two pairs share a key exactly when they hold the same two labels |
| Bqm.BinaryQuadraticModel.constructor | quantum_annealing_sim.py:18 | `BinaryQuadraticModel('BINARY')` starts with no variables, no pairs and offset 0 |
| Bqm.BinaryQuadraticModel.AddVariable | quantum_annealing_sim.py:24 | `add_variable(v, bias)` creates v if it is new and adds `bias` onto its linear bias; nothing else changes |
| Bqm.EnergyLinearAdded | quantum_annealing_sim.py:24 | adding b to v's linear bias raises the energy of every sample by b * x[v] |
| Bqm.BinaryQuadraticModel.AddQuadratic | quantum_annealing_sim.py:48 | `add_quadratic(u, v, bias)` creates u and v if they are new and adds `bias` onto the bias of the pair {u, v}, accumulating rather than overwriting |
| Bqm.QuadraticBiasAdded | quantum_annealing_sim.py:48 | `add_quadratic` changes the bias of its own pair by `bias` and no other pair's bias |
| Bqm.QuadraticAddedLinear | quantum_annealing_sim.py:48 | `add_quadratic` leaves every linear bias and the offset unchanged and adds u and v to the variables |
| Bqm.EnergyQuadraticAdded | quantum_annealing_sim.py:48 | adding b to {u, v} raises the energy of every sample by b * x[u] * x[v] |
| Bqm.BinaryQuadraticModel.AddLinearEqualityConstraint | quantum_annealing_sim.py:28-29 | `add_linear_equality_constraint(terms, constant, lagrange_multiplier)` adds lam * c^2 to the offset, lam * (2cb + b^2) to each term's variable, and 2 * lam * b * b' to each pair of terms |
| Bqm.EnergyConstraintAdded | quantum_annealing_sim.py:28-29 | for a 0/1 sample, the constraint raises the energy by exactly lam * (sum of b * x[v] + c)^2 |
| Bqm.ConstraintLinear | quantum_annealing_sim.py:28-29 | the constraint creates exactly its terms' variables, adds SelfBias to each of them and nothing to any other variable |
| Bqm.ConstraintElsewhere | quantum_annealing_sim.py:28-29 | the constraint adds nothing to a pair unless both of its variables are terms of the constraint |
| Bqm.ConstraintPairBias | quantum_annealing_sim.py:28-29 | the pair of terms s < t gets exactly 2 * lam * b_s * b_t from the constraint |
| Bqm.IterationsEnergy | quantum_annealing_sim.py:21-48 | the energy a loop adds is the sum of what its iterations add |
| Bqm.IterationsLinear | quantum_annealing_sim.py:21-48 | the linear bias a loop adds to a variable is the sum of what its iterations add |
| Bqm.IterationsQuad | quantum_annealing_sim.py:21-48 | the bias a loop adds to a pair is the sum of what its iterations add |
| Bqm.IterationsVars | quantum_annealing_sim.py:21-48 | a loop creates exactly the variables that one of its iterations creates |
| Qap.RowTerms | quantum_annealing_sim.py:29 | facility i's terms are `(f{i}_l{p}, 1)` for p < n, with distinct variables |
| Qap.ColTerms | quantum_annealing_sim.py:35 | location p's terms are `(f{i}_l{p}, 1)` for i < n, with distinct variables |
| Qap.AddTupleRow | quantum_annealing_sim.py:22-24 | the inner loop adds the variables (i, 0) .. (i, n-1) with bias 0, in order |
| Qap.AddTupleVariables | quantum_annealing_sim.py:21-24 | the first loop nest adds (i, p) with bias 0 for every i, p < n, row by row |
| Qap.AddRowConstraints | quantum_annealing_sim.py:27-30 | the second loop adds one constraint per facility i < n, in order |
| Qap.AddColumnConstraints | quantum_annealing_sim.py:32-36 | the third loop adds one constraint per location p < n, in order |
| Qap.AddPairTerm | quantum_annealing_sim.py:45-48 | one iteration adds `facilities[i][j] * locations[p][q]` onto {f{i}_l{p}, f{j}_l{q}} when q != p and nothing when q == p |
| Qap.AddLocationPairs | quantum_annealing_sim.py:44-48 | for fixed i, j and p, the loop adds `facilities[i][j] * locations[p][q]` onto {f{i}_l{p}, f{j}_l{q}} for every q != p, skipping q == p |
| Qap.AddPairCosts | quantum_annealing_sim.py:43-48 | for fixed i, j the loop covers every location p |
| Qap.AddPartnerCosts | quantum_annealing_sim.py:40-48 | for fixed i the loop covers every facility j != i, skipping j == i |
| Qap.AddObjective | quantum_annealing_sim.py:39-48 | the objective loop nest covers every facility i |
| Qap.CreateQapBqm | quantum_annealing_sim.py:11-50 | `create_qap_bqm` returns a fresh model equal to `QapModel(facilities, locations)`: the four loop nests applied in order to the empty model |
| QapEnergy.TupleEnergy | quantum_annealing_sim.py:21-24 | the tuple variables add nothing to the energy of any sample |
| QapEnergy.RowConstraintsEnergy | quantum_annealing_sim.py:27-30 | for a 0/1 sample, the row constraints add 10 * (row sum - 1)^2 for every facility |
| QapEnergy.ColumnConstraintsEnergy | quantum_annealing_sim.py:32-36 | for a 0/1 sample, the column constraints add 10 * (column sum - 1)^2 for every location |
| QapEnergy.ObjectiveEnergy | quantum_annealing_sim.py:38-48 | the objective loop adds the sum over i != j and p != q of facilities[i][j] * locations[p][q] * x[f{i}_l{p}] * x[f{j}_l{q}] |
| QapEnergy.QapModelEnergy | quantum_annealing_sim.py:11-50 | for a 0/1 sample, the energy of the built model is the QAP objective plus the row and column penalties |
| QapSolutions.OneHotPenaltyBounds | quantum_annealing_sim.py:28-29 | 10 * (sum - 1)^2 is 0 exactly when the sum is 1 and at least 10 otherwise |
| QapSolutions.RowPenaltyIff | quantum_annealing_sim.py:27-30 | a facility's penalty is 0 exactly when it sits at exactly one location, and at least 10 otherwise |
| QapSolutions.ColumnPenaltyIff | quantum_annealing_sim.py:32-36 | a location's penalty is 0 exactly when it holds exactly one facility, and at least 10 otherwise |
| QapSolutions.PenaltyIff | quantum_annealing_sim.py:26-36 | for a 0/1 sample the total penalty is at least 0, is 0 exactly on feasible samples, and is at least 10 on all others |
| QapSolutions.FeasibleEnergy | quantum_annealing_sim.py:11-50 | a feasible 0/1 sample's energy equals its objective |
| QapSolutions.ViolationEnergy | quantum_annealing_sim.py:11-50 | a 0/1 sample that breaks a row or column constraint has energy at least its objective + 10 |
| QapSolutions.PermutationFeasible | quantum_annealing_sim.py:26-36 | the sample of a permutation satisfies every row and column constraint |
| QapSolutions.PermutationEnergy | quantum_annealing_sim.py:11-50 | the sample of a permutation s has penalty 0 and energy equal to the sum over i != j of facilities[i][j] * locations[s[i]][s[j]] |
| QapSolutions.FeasiblePermutation | quantum_annealing_sim.py:26-36 | every feasible 0/1 sample is the sample of a permutation, so the penalty-free samples are exactly the assignments |
| QapSolutions.EnergyIgnoresTuples | quantum_annealing_sim.py:21-24 | two 0/1 samples that agree on the named variables have the same energy, whatever the tuple variables hold |
| QapSolutions.PenaltyIgnoresTuples | quantum_annealing_sim.py:26-36 | the row and column penalties depend only on the named variables f{i}_l{p} |
| QapSolutions.ObjectiveIgnoresTuples | quantum_annealing_sim.py:38-48 | the objective depends only on the named variables f{i}_l{p} |
| QapBiases.TupleOpsShape | quantum_annealing_sim.py:21-24 | the first loop nest only adds bias 0 to tuple variables (i, p) with i, p < n |
| QapBiases.ObjectiveOpsShape | quantum_annealing_sim.py:39-48 | every objective term pairs two named variables below n of different facilities and different locations, so never a variable with itself |
| QapBiases.RowConstraintQuad | quantum_annealing_sim.py:28-29 | a facility's constraint adds 20 to each pair of its own variables and nothing to any other pair |
| QapBiases.ColumnConstraintQuad | quantum_annealing_sim.py:34-35 | a location's constraint adds 20 to each pair of its own variables and nothing to any other pair |
| QapBiases.QapVariables | quantum_annealing_sim.py:17-48 | the built model has exactly the variables (i, p) and f{i}_l{p} for i, p < n |
| QapBiases.QapLinearBias | quantum_annealing_sim.py:21-36 | every tuple variable has linear bias 0 and every named variable has -20 (-10 from its row, -10 from its column) |
| QapBiases.TupleIsolated | quantum_annealing_sim.py:21-24 | no pair that holds a tuple variable has a nonzero bias |
| QapBiases.QapQuadraticBias | quantum_annealing_sim.py:26-48 | two named variables of one facility or one location share bias 20; otherwise they share facilities[i][j] * locations[p][q] + facilities[j][i] * locations[q][p]; no pair gets both |
| QapBiases.QapNoSelfPairs | quantum_annealing_sim.py:17-48 | no `add_quadratic` the builder performs pairs a variable with itself, so dimod's self-pair error is never raised |
| QapDecode.AsWritten | quantum_annealing_sim.py:74-76 | the loop as written fails exactly when the items hold a string label, and stops at the first one; otherwise it reports exactly the tuple labels whose value is 1 |
| QapDecode.AsWrittenPrinted | quantum_annealing_sim.py:74-76 | when the loop as written stops, it has printed exactly the tuple labels with value 1 that come before the first string label |
| QapDecode.DecodeAsWritten | quantum_annealing_sim.py:74-76 | the loop over the items, stopping at the first label it cannot unpack, computes `AsWritten` |
| QapDecode.AsWrittenFailsOnModel | quantum_annealing_sim.py:74-76 | on every sample of the model built for n >= 1 the loop as written fails |
| QapDecode.Assignment | quantum_annealing_sim.py:74-76 | the corrected decoding reports (i, p) exactly when f{i}_l{p} is listed with value 1 |
| QapDecode.DecodeAssignment | quantum_annealing_sim.py:74-76 | the corrected loop computes `Assignment` |
| QapDecode.DecodeRoundTrip | quantum_annealing_sim.py:74-76 | decoding the sample of a permutation s gives back s: facility i is reported at s[i] and nowhere else |
| QapExample.IdentityEnergy | quantum_annealing_sim.py:53-62 | in the script's 3 x 3 instance, placing facility i at location i has energy 36 |
| QapExample.ExampleCrossBias | quantum_annealing_sim.py:53-62 | in the script's instance, f0_l1 and f1_l0 share the bias 1 * 5 + 1 * 5 = 10 |

## Left out

- `qubit_sim.py` is not part of this model.
- The simulated annealing sampler, `num_reads` and `sampleset.first` are not modelled. The best sample is a parameter (a `Sample`, or its list of items), so nothing here says that the sampler finds a minimum.
- Printing is not modelled. The decoding loop returns the pairs it would print, and on failure also the pairs it printed before it stopped.
- The order in which the sample lists its labels is not modelled. `AsWrittenFailsOnModel` holds for every order.
- Floating point is not modelled. The source writes the constraint coefficients as `1.0`; they are the integer 1 here, and all biases and energies are integers. The numpy matrices are read as unbounded integers, so int64 overflow of `facilities[i][j] * locations[p][q]` is not modelled.
- Qap.CreateQapBqm: it requires both matrices to have at least n rows of at least n entries, with n = `len(facilities)`. For n >= 2, a matrix with fewer rows or shorter rows makes the indexing at line 47 raise `IndexError` in the source; the model does not represent that error path. For n = 1 every objective visit has i == j and skips at lines 41-42, so the source reads no entry and accepts `create_qap_bqm([[]], [])`; the model still requires 1 x 1 matrices. The diagonal entries are never read either, so the source also accepts a last row one entry short, which the model does not. `QapModel` reads missing entries as 0.
- The order of the operations inside `add_linear_equality_constraint` follows the expansion of lam * (sum + c)^2. It is not copied from dimod's own loop, which is not part of this model. Only the accumulated biases are claimed to match.
- dimod's label bookkeeping (variable order, the vartype, and its errors for SPIN models) is not modelled. A self-pair passed to `add_quadratic` is a no-op here rather than an error. `QapBiases.QapNoSelfPairs` shows that the builder never passes one.

## Findings

| source | as written | input that shows it | evidently intended | confidence | as-written member | corrected member |
|---|---|---|---|---|---|---|
| quantum_annealing_sim.py:74-76 | `for (i, p), val in best.items()` unpacks every label as a pair | any sample of `create_qap_bqm(D, F)` with n >= 1: it holds the label `'f0_l0'`, a five-character string that cannot unpack into `(i, p)`, so the loop raises ValueError. The tuple labels were created first; if they come first in the sample, the loop has already printed those set to 1, which no term of the model constrains | report facility i at location p for each named variable `f{i}_l{p}` equal to 1 | not executed; follows from the labels the builder creates | QapDecode.AsWrittenFailsOnModel | QapDecode.DecodeRoundTrip |
