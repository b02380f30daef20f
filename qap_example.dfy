/** The three-facility instance the script builds and samples. */
module QapExample {
  import opened Sums
  import opened Bqm
  import opened Qap
  import opened QapEnergy
  import opened QapSolutions
  import opened QapBiases

  /** The matrix the script passes as `facilities` (its D). */
  const D: seq<seq<int>> := [[0, 1, 2], [1, 0, 3], [2, 3, 0]]

  /** The matrix the script passes as `locations` (its F). */
  const Flow: seq<seq<int>> := [[0, 5, 2], [5, 0, 3], [2, 3, 0]]

  /** The sample that places facility i at location i. */
  const Identity: Sample := map v | v in {Named(0, 0), Named(0, 1), Named(0, 2), Named(1, 0), Named(1, 1), Named(1, 2), Named(2, 0), Named(2, 1), Named(2, 2)} :: if v.i == v.p then 1 else 0

  /** The identity sample is a 0/1 sample that encodes the permutation [0, 1, 2]. */
  lemma IdentityEncodes()
    ensures Binary(Identity) && IsPermutation([0, 1, 2], 3) && Encodes(Identity, [0, 1, 2], 3)
  {
    var s := [0, 1, 2];
    assert forall p :: 0 <= p < 3 ==> s[p] == p;
    forall p | 0 <= p < 3
      ensures p in s
    {
      assert s[p] == p;
    }
  }

  /** The QAP cost of placing facility i at location i: 2 * (1 * 5 + 2 * 2 + 3 * 3). */
  lemma IdentityCost()
    ensures AssignmentCost(D, Flow, [0, 1, 2]) == 36
  {
    var s := [0, 1, 2];
    assert SumRange(3, j => AssignedCost(D, Flow, s, 0, j)) == 9;
    assert SumRange(3, j => AssignedCost(D, Flow, s, 1, j)) == 14;
    assert SumRange(3, j => AssignedCost(D, Flow, s, 2, j)) == 13;
  }

  /** Placing facility i at location i has energy 36 in the model
      create_qap_bqm(D, F) builds. */
  lemma IdentityEnergy()
    ensures Energy(QapModel(D, Flow), Identity) == 36
  {
    IdentityEncodes();
    PermutationEnergy(D, Flow, Identity, [0, 1, 2]);
    IdentityCost();
  }

  /** f0_l1 and f1_l0 share the bias D[0][1] * F[1][0] + D[1][0] * F[0][1] = 10. */
  lemma ExampleCrossBias()
    ensures QuadraticBias(QapModel(D, Flow), Key(Named(0, 1), Named(1, 0))) == 10
  {
    QapQuadraticBias(D, Flow, 0, 1, 1, 0);
  }
}
