/** What the energy of the model create_qap_bqm builds says about 0/1
    samples: the penalties vanish exactly on samples that place every
    facility at one location and give every location one facility, such a
    sample is a permutation and its energy is that permutation's
    assignment cost, any other sample pays at least 10 on top of its
    objective, and the tuple variables never change the energy. */
module QapSolutions {
  import opened Sums
  import opened Bqm
  import opened Qap
  import opened QapEnergy

  // One "exactly one" penalty.

  /** 10 * (sum - 1)^2 is 0 exactly when sum is 1, and at least 10 otherwise. */
  lemma OneHotPenaltyBounds(sum: int)
    ensures OneHotPenalty(sum) >= 0
    ensures OneHotPenalty(sum) == 0 <==> sum == 1
    ensures sum != 1 ==> OneHotPenalty(sum) >= Lagrange
  {
    var d := sum - 1;
    if d >= 1 {
      assert d * d >= d;
    } else if d <= -1 {
      assert d * d == (-d) * (-d) >= -d;
    }
  }

  /** In a 0/1 sample every named variable is 0 or 1. */
  lemma PlacedBinary(x: Sample, i: int, p: int)
    requires Binary(x)
    ensures Placed(x, i, p) == 0 || Placed(x, i, p) == 1
  {
  }

  /** Facility i sits at exactly one of the locations p < n. */
  ghost predicate RowOneHot(x: Sample, n: nat, i: int)
  {
    ExactlyOne(n, p => Placed(x, i, p))
  }

  /** Location p holds exactly one of the facilities i < n. */
  ghost predicate ColumnOneHot(x: Sample, n: nat, p: int)
  {
    ExactlyOne(n, i => Placed(x, i, p))
  }

  /** Every facility at one location and every location holding one facility. */
  ghost predicate Feasible(x: Sample, n: nat)
  {
    (forall i :: 0 <= i < n ==> RowOneHot(x, n, i)) &&
    (forall p :: 0 <= p < n ==> ColumnOneHot(x, n, p))
  }

  /** A row penalty vanishes exactly when its facility is placed once, and is
      at least 10 otherwise. */
  lemma RowPenaltyIff(x: Sample, n: nat, i: int)
    requires Binary(x)
    ensures OneHotPenalty(RowSum(x, n, i)) >= 0
    ensures OneHotPenalty(RowSum(x, n, i)) == 0 <==> RowOneHot(x, n, i)
    ensures !RowOneHot(x, n, i) ==> OneHotPenalty(RowSum(x, n, i)) >= Lagrange
  {
    forall p | 0 <= p < n
      ensures Placed(x, i, p) == 0 || Placed(x, i, p) == 1
    {
      PlacedBinary(x, i, p);
    }
    SumRangeOneIff(n, p => Placed(x, i, p));
    OneHotPenaltyBounds(RowSum(x, n, i));
  }

  /** A column penalty vanishes exactly when its location is taken once, and
      is at least 10 otherwise. */
  lemma ColumnPenaltyIff(x: Sample, n: nat, p: int)
    requires Binary(x)
    ensures OneHotPenalty(ColSum(x, n, p)) >= 0
    ensures OneHotPenalty(ColSum(x, n, p)) == 0 <==> ColumnOneHot(x, n, p)
    ensures !ColumnOneHot(x, n, p) ==> OneHotPenalty(ColSum(x, n, p)) >= Lagrange
  {
    forall i | 0 <= i < n
      ensures Placed(x, i, p) == 0 || Placed(x, i, p) == 1
    {
      PlacedBinary(x, i, p);
    }
    SumRangeOneIff(n, i => Placed(x, i, p));
    OneHotPenaltyBounds(ColSum(x, n, p));
  }

  /** For a 0/1 sample the total penalty is never negative, vanishes exactly
      on feasible samples, and is at least 10 on every other sample. */
  lemma PenaltyIff(x: Sample, n: nat)
    requires Binary(x)
    ensures Penalty(x, n) >= 0
    ensures Penalty(x, n) == 0 <==> Feasible(x, n)
    ensures !Feasible(x, n) ==> Penalty(x, n) >= Lagrange
  {
    var rows := i => OneHotPenalty(RowSum(x, n, i));
    var cols := p => OneHotPenalty(ColSum(x, n, p));
    forall i | 0 <= i < n
      ensures rows(i) >= 0 && (rows(i) == 0 <==> RowOneHot(x, n, i))
      ensures !RowOneHot(x, n, i) ==> rows(i) >= Lagrange
    {
      RowPenaltyIff(x, n, i);
    }
    forall p | 0 <= p < n
      ensures cols(p) >= 0 && (cols(p) == 0 <==> ColumnOneHot(x, n, p))
      ensures !ColumnOneHot(x, n, p) ==> cols(p) >= Lagrange
    {
      ColumnPenaltyIff(x, n, p);
    }
    SumRangeNonneg(n, rows);
    SumRangeNonneg(n, cols);
  }

  /** A feasible 0/1 sample's energy is its objective. */
  lemma FeasibleEnergy(F: seq<seq<int>>, L: seq<seq<int>>, x: Sample)
    requires Binary(x) && Feasible(x, |F|)
    ensures Energy(QapModel(F, L), x) == Objective(F, L, x)
  {
    QapModelEnergy(F, L, x);
    PenaltyIff(x, |F|);
  }

  /** A 0/1 sample that leaves a facility unplaced or doubly placed, or a
      location empty or shared, pays at least 10 above its objective. */
  lemma ViolationEnergy(F: seq<seq<int>>, L: seq<seq<int>>, x: Sample)
    requires Binary(x) && !Feasible(x, |F|)
    ensures Energy(QapModel(F, L), x) >= Objective(F, L, x) + Lagrange
  {
    QapModelEnergy(F, L, x);
    PenaltyIff(x, |F|);
  }

  // Permutations.

  /** s sends the facilities 0 .. n-1 one-to-one onto the locations 0 .. n-1. */
  ghost predicate IsPermutation(s: seq<int>, n: nat)
  {
    |s| == n &&
    (forall i :: 0 <= i < n ==> 0 <= s[i] < n) &&
    (forall i, j :: 0 <= i < n && 0 <= j < n && i != j ==> s[i] != s[j]) &&
    (forall p :: 0 <= p < n ==> p in s)
  }

  /** x places facility i at location s[i] and nowhere else. */
  ghost predicate Encodes(x: Sample, s: seq<int>, n: nat)
    requires |s| == n
  {
    forall i, p :: 0 <= i < n && 0 <= p < n ==> Placed(x, i, p) == (if s[i] == p then 1 else 0)
  }

  /** The flow-times-distance cost of the pair of facilities i != j under s. */
  function AssignedCost(F: seq<seq<int>>, L: seq<seq<int>>, s: seq<int>, i: int, j: int): int
  {
    if 0 <= i < |s| && 0 <= j < |s| && i != j then Cost(F, L, i, j, s[i], s[j]) else 0
  }

  /** The QAP cost of the assignment s: facilities[i][j] * locations[s[i]][s[j]]
      summed over all i != j. */
  function AssignmentCost(F: seq<seq<int>>, L: seq<seq<int>>, s: seq<int>): int
  {
    SumRange(|s|, i => SumRange(|s|, j => AssignedCost(F, L, s, i, j)))
  }

  /** A permutation's sample satisfies every constraint. */
  lemma PermutationFeasible(x: Sample, s: seq<int>, n: nat)
    requires IsPermutation(s, n) && Encodes(x, s, n)
    ensures Feasible(x, n)
  {
    forall i | 0 <= i < n
      ensures RowOneHot(x, n, i)
    {
      var f := p => Placed(x, i, p);
      assert f(s[i]) == 1;
      assert forall p :: 0 <= p < n && p != s[i] ==> f(p) == 0;
    }
    forall p | 0 <= p < n
      ensures ColumnOneHot(x, n, p)
    {
      var g := i => Placed(x, i, p);
      assert p in s;
      var i :| 0 <= i < n && s[i] == p;
      assert g(i) == 1;
      assert forall j :: 0 <= j < n && j != i ==> g(j) == 0;
    }
  }

  /** The objective terms of facility i at p and facility j under a
      permutation: only p == s[i] and then q == s[j] contribute. */
  lemma PermutationLocationTotal(F: seq<seq<int>>, L: seq<seq<int>>, x: Sample, s: seq<int>, n: nat, i: int, j: int, p: int)
    requires IsPermutation(s, n) && Encodes(x, s, n)
    requires 0 <= i < n && 0 <= j < n && 0 <= p < n
    ensures LocationTotal(F, L, x, n, i, j, p) == if p == s[i] then AssignedCost(F, L, s, i, j) else 0
  {
    var f := q => PairCost(F, L, x, i, j, p, q);
    if p == s[i] {
      forall q | 0 <= q < n && q != s[j]
        ensures f(q) == 0
      {
        assert Placed(x, j, q) == 0;
      }
      SumRangeSingle(n, f, s[j]);
      assert Placed(x, i, p) == 1 && Placed(x, j, s[j]) == 1;
    } else {
      forall q | 0 <= q < n
        ensures f(q) == 0
      {
        assert Placed(x, i, p) == 0;
      }
      SumRangeZero(n, f);
    }
  }

  /** The objective terms of facilities i and j under a permutation cost
      facilities[i][j] * locations[s[i]][s[j]]. */
  lemma PermutationPairTotal(F: seq<seq<int>>, L: seq<seq<int>>, x: Sample, s: seq<int>, n: nat, i: int, j: int)
    requires IsPermutation(s, n) && Encodes(x, s, n)
    requires 0 <= i < n && 0 <= j < n
    ensures PairTotal(F, L, x, n, i, j) == AssignedCost(F, L, s, i, j)
  {
    forall p | 0 <= p < n
      ensures LocationTotal(F, L, x, n, i, j, p) == if p == s[i] then AssignedCost(F, L, s, i, j) else 0
    {
      PermutationLocationTotal(F, L, x, s, n, i, j, p);
    }
    SumRangeSingle(n, p => LocationTotal(F, L, x, n, i, j, p), s[i]);
  }

  /** The objective of a permutation's sample is the permutation's assignment cost. */
  lemma PermutationObjective(F: seq<seq<int>>, L: seq<seq<int>>, x: Sample, s: seq<int>)
    requires IsPermutation(s, |F|) && Encodes(x, s, |F|)
    ensures Objective(F, L, x) == AssignmentCost(F, L, s)
  {
    var n := |F|;
    forall i | 0 <= i < n
      ensures FacilityTotal(F, L, x, n, i) == SumRange(n, j => AssignedCost(F, L, s, i, j))
    {
      forall j | 0 <= j < n
        ensures PairTotal(F, L, x, n, i, j) == AssignedCost(F, L, s, i, j)
      {
        PermutationPairTotal(F, L, x, s, n, i, j);
      }
      SumRangeExt(n, j => PairTotal(F, L, x, n, i, j), j => AssignedCost(F, L, s, i, j));
    }
    SumRangeExt(n, i => FacilityTotal(F, L, x, n, i), i => SumRange(n, j => AssignedCost(F, L, s, i, j)));
  }

  /** The 0/1 sample of a permutation has no penalty, and its energy in the
      model create_qap_bqm(F, L) builds is the permutation's QAP cost. */
  lemma PermutationEnergy(F: seq<seq<int>>, L: seq<seq<int>>, x: Sample, s: seq<int>)
    requires Binary(x) && IsPermutation(s, |F|) && Encodes(x, s, |F|)
    ensures Penalty(x, |F|) == 0
    ensures Energy(QapModel(F, L), x) == AssignmentCost(F, L, s)
  {
    PermutationFeasible(x, s, |F|);
    PenaltyIff(x, |F|);
    QapModelEnergy(F, L, x);
    PermutationObjective(F, L, x, s);
  }

  /** The location of facility i in a sample where it sits at exactly one. */
  ghost function LocationOf(x: Sample, n: nat, i: int): (p: int)
    requires RowOneHot(x, n, i)
    ensures 0 <= p < n && Placed(x, i, p) == 1
    ensures forall q :: 0 <= q < n && q != p ==> Placed(x, i, q) == 0
  {
    var f := q => Placed(x, i, q);
    assert forall q :: f(q) == Placed(x, i, q);
    var p :| 0 <= p < n && f(p) == 1 && forall q :: 0 <= q < n && q != p ==> f(q) == 0;
    p
  }

  /** Every feasible 0/1 sample is the sample of a permutation: the
      zero-penalty samples are exactly the assignments. */
  lemma FeasiblePermutation(x: Sample, n: nat) returns (s: seq<int>)
    requires Binary(x) && Feasible(x, n)
    ensures IsPermutation(s, n) && Encodes(x, s, n)
  {
    s := seq(n, i requires 0 <= i < n => LocationOf(x, n, i));
    forall i, j | 0 <= i < n && 0 <= j < n && i != j
      ensures s[i] != s[j]
    {
      var p := s[i];
      var g := k => Placed(x, k, p);
      assert ColumnOneHot(x, n, p);
      var k :| 0 <= k < n && g(k) == 1 && forall m :: 0 <= m < n && m != k ==> g(m) == 0;
      assert g(i) == 1 && i == k;
      assert Placed(x, j, s[j]) == 1 && g(j) == Placed(x, j, p);
      assert j != k ==> g(j) == 0;
    }
    forall p | 0 <= p < n
      ensures p in s
    {
      var g := k => Placed(x, k, p);
      assert ColumnOneHot(x, n, p);
      var k :| 0 <= k < n && g(k) == 1 && forall m :: 0 <= m < n && m != k ==> g(m) == 0;
      assert s[k] == p;
    }
  }

  // The tuple variables.

  /** Two 0/1 samples that agree on every named variable have the same
      energy: the tuple variables, whatever their values, change nothing. */
  lemma EnergyIgnoresTuples(F: seq<seq<int>>, L: seq<seq<int>>, x: Sample, y: Sample)
    requires Binary(x) && Binary(y)
    requires forall i, p :: Placed(x, i, p) == Placed(y, i, p)
    ensures Energy(QapModel(F, L), x) == Energy(QapModel(F, L), y)
  {
    QapModelEnergy(F, L, x);
    QapModelEnergy(F, L, y);
    PenaltyIgnoresTuples(x, y, |F|);
    ObjectiveIgnoresTuples(F, L, x, y);
  }

  /** The penalties read only the named variables. */
  lemma PenaltyIgnoresTuples(x: Sample, y: Sample, n: nat)
    requires forall i, p :: Placed(x, i, p) == Placed(y, i, p)
    ensures Penalty(x, n) == Penalty(y, n)
  {
    forall i | 0 <= i < n
      ensures RowSum(x, n, i) == RowSum(y, n, i)
    {
      SumRangeExt(n, p => Placed(x, i, p), p => Placed(y, i, p));
    }
    forall p | 0 <= p < n
      ensures ColSum(x, n, p) == ColSum(y, n, p)
    {
      SumRangeExt(n, i => Placed(x, i, p), i => Placed(y, i, p));
    }
    SumRangeExt(n, i => OneHotPenalty(RowSum(x, n, i)), i => OneHotPenalty(RowSum(y, n, i)));
    SumRangeExt(n, p => OneHotPenalty(ColSum(x, n, p)), p => OneHotPenalty(ColSum(y, n, p)));
  }

  /** The objective reads only the named variables. */
  lemma ObjectiveIgnoresTuples(F: seq<seq<int>>, L: seq<seq<int>>, x: Sample, y: Sample)
    requires forall i, p :: Placed(x, i, p) == Placed(y, i, p)
    ensures Objective(F, L, x) == Objective(F, L, y)
  {
    var n := |F|;
    forall i | 0 <= i < n
      ensures FacilityTotal(F, L, x, n, i) == FacilityTotal(F, L, y, n, i)
    {
      FacilityIgnoresTuples(F, L, x, y, n, i);
    }
    SumRangeExt(n, i => FacilityTotal(F, L, x, n, i), i => FacilityTotal(F, L, y, n, i));
  }

  /** One facility's share of the objective reads only the named variables. */
  lemma FacilityIgnoresTuples(F: seq<seq<int>>, L: seq<seq<int>>, x: Sample, y: Sample, n: nat, i: int)
    requires forall i, p :: Placed(x, i, p) == Placed(y, i, p)
    ensures FacilityTotal(F, L, x, n, i) == FacilityTotal(F, L, y, n, i)
  {
    forall j | 0 <= j < n
      ensures PairTotal(F, L, x, n, i, j) == PairTotal(F, L, y, n, i, j)
    {
      forall p | 0 <= p < n
        ensures LocationTotal(F, L, x, n, i, j, p) == LocationTotal(F, L, y, n, i, j, p)
      {
        SumRangeExt(n, q => PairCost(F, L, x, i, j, p, q), q => PairCost(F, L, y, i, j, p, q));
      }
      SumRangeExt(n, p => LocationTotal(F, L, x, n, i, j, p), p => LocationTotal(F, L, y, n, i, j, p));
    }
    SumRangeExt(n, j => PairTotal(F, L, x, n, i, j), j => PairTotal(F, L, y, n, i, j));
  }
}
