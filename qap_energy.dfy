/** The energy of the model create_qap_bqm builds, for a 0/1 sample: the QAP
    objective over the named variables plus the row and column penalties. */
module QapEnergy {
  import opened Sums
  import opened Bqm
  import opened Qap

  /** The value of f{i}_l{p} in x: 1 when facility i sits at location p. */
  function Placed(x: Sample, i: int, p: int): int
  {
    X(x, Named(i, p))
  }

  /** How many locations facility i occupies. */
  function RowSum(x: Sample, n: nat, i: int): int
  {
    SumRange(n, p => Placed(x, i, p))
  }

  /** How many facilities location p holds. */
  function ColSum(x: Sample, n: nat, p: int): int
  {
    SumRange(n, i => Placed(x, i, p))
  }

  /** The penalty 10 * (sum - 1)^2 of one "exactly one" constraint. */
  function OneHotPenalty(sum: int): int
  {
    Lagrange * (sum - 1) * (sum - 1)
  }

  /** The row penalties of every facility and the column penalties of every location. */
  function Penalty(x: Sample, n: nat): int
  {
    SumRange(n, i => OneHotPenalty(RowSum(x, n, i))) + SumRange(n, p => OneHotPenalty(ColSum(x, n, p)))
  }

  /** What the objective term of facility i at p and facility j at q costs in
      x: nothing unless i != j, p != q and both placements are taken. */
  function PairCost(F: seq<seq<int>>, L: seq<seq<int>>, x: Sample, i: int, j: int, p: int, q: int): int
  {
    if i == j || p == q then 0 else Cost(F, L, i, j, p, q) * (Placed(x, i, p) * Placed(x, j, q))
  }

  /** The objective terms of facility i at p and facility j anywhere. */
  function LocationTotal(F: seq<seq<int>>, L: seq<seq<int>>, x: Sample, n: nat, i: int, j: int, p: int): int
  {
    SumRange(n, q => PairCost(F, L, x, i, j, p, q))
  }

  /** The objective terms of facilities i and j. */
  function PairTotal(F: seq<seq<int>>, L: seq<seq<int>>, x: Sample, n: nat, i: int, j: int): int
  {
    SumRange(n, p => LocationTotal(F, L, x, n, i, j, p))
  }

  /** The objective terms of facility i with every other facility. */
  function FacilityTotal(F: seq<seq<int>>, L: seq<seq<int>>, x: Sample, n: nat, i: int): int
  {
    SumRange(n, j => PairTotal(F, L, x, n, i, j))
  }

  /** The QAP objective: the sum over i != j and p != q of
      facilities[i][j] * locations[p][q] * x[f{i}_l{p}] * x[f{j}_l{q}]. */
  function Objective(F: seq<seq<int>>, L: seq<seq<int>>, x: Sample): int
  {
    SumRange(|F|, i => FacilityTotal(F, L, x, |F|, i))
  }

  // The energy of each loop of create_qap_bqm.

  /** Registering facility i's tuple variables with bias 0 adds nothing to any energy. */
  lemma TupleRowEnergy(x: Sample, n: nat, i: int)
    ensures OpsEnergy(TupleRowOps(i, n), x) == 0
  {
    var body := p => [AddLinear(Tup(i, p), 0)];
    IterationsEnergy(n, body, x);
    forall p | 0 <= p < n
      ensures OpsEnergy(body(p), x) == 0
    {
      EnergySingle(AddLinear(Tup(i, p), 0), x);
    }
    SumRangeZero(n, p => OpsEnergy(body(p), x));
  }

  /** The tuple variables add nothing to any energy. */
  lemma TupleEnergy(x: Sample, n: nat)
    ensures OpsEnergy(TupleOps(n, n), x) == 0
  {
    var body := i => TupleRowOps(i, n);
    IterationsEnergy(n, body, x);
    forall i | 0 <= i < n
      ensures OpsEnergy(body(i), x) == 0
    {
      TupleRowEnergy(x, n, i);
    }
    SumRangeZero(n, i => OpsEnergy(body(i), x));
  }

  /** The energy facility i's constraint adds to x. */
  function RowEnergy(x: Sample, n: nat, i: int): int
  {
    OpsEnergy(ConstraintOps(RowTerms(n, i), -1, Lagrange), x)
  }

  /** The energy location p's constraint adds to x. */
  function ColEnergy(x: Sample, n: nat, p: int): int
  {
    OpsEnergy(ConstraintOps(ColTerms(n, p), -1, Lagrange), x)
  }

  /** The terms of facility i's constraint, weighted by x, sum to the row sum. */
  lemma {:induction false} RowDot(x: Sample, n: nat, i: int, k: nat)
    requires k <= n
    ensures Dot(RowTerms(n, i), x, k) == SumRange(k, p => Placed(x, i, p))
  {
    if k > 0 {
      RowDot(x, n, i, k - 1);
    }
  }

  /** The terms of location p's constraint, weighted by x, sum to the column sum. */
  lemma {:induction false} ColDot(x: Sample, n: nat, p: int, k: nat)
    requires k <= n
    ensures Dot(ColTerms(n, p), x, k) == SumRange(k, i => Placed(x, i, p))
  {
    if k > 0 {
      ColDot(x, n, p, k - 1);
    }
  }

  /** For a 0/1 sample, facility i's constraint adds 10 * (row sum - 1)^2. */
  lemma RowPenalty(x: Sample, n: nat, i: int)
    requires Binary(x)
    ensures RowEnergy(x, n, i) == OneHotPenalty(RowSum(x, n, i))
  {
    ConstraintOpsEnergy(RowTerms(n, i), x, -1, Lagrange);
    RowDot(x, n, i, n);
  }

  /** For a 0/1 sample, location p's constraint adds 10 * (column sum - 1)^2. */
  lemma ColPenalty(x: Sample, n: nat, p: int)
    requires Binary(x)
    ensures ColEnergy(x, n, p) == OneHotPenalty(ColSum(x, n, p))
  {
    ConstraintOpsEnergy(ColTerms(n, p), x, -1, Lagrange);
    ColDot(x, n, p, n);
  }

  /** For a 0/1 sample, the row constraints add the row penalties. */
  lemma RowConstraintsEnergy(x: Sample, n: nat)
    requires Binary(x)
    ensures OpsEnergy(RowConstraintOps(n, n), x) == SumRange(n, i => OneHotPenalty(RowSum(x, n, i)))
  {
    var body := i => ConstraintOps(RowTerms(n, i), -1, Lagrange);
    IterationsEnergy(n, body, x);
    forall i | 0 <= i < n
      ensures OpsEnergy(body(i), x) == OneHotPenalty(RowSum(x, n, i))
    {
      RowPenalty(x, n, i);
    }
    SumRangeExt(n, i => OpsEnergy(body(i), x), i => OneHotPenalty(RowSum(x, n, i)));
  }

  /** For a 0/1 sample, the column constraints add the column penalties. */
  lemma ColumnConstraintsEnergy(x: Sample, n: nat)
    requires Binary(x)
    ensures OpsEnergy(ColumnConstraintOps(n, n), x) == SumRange(n, p => OneHotPenalty(ColSum(x, n, p)))
  {
    var body := p => ConstraintOps(ColTerms(n, p), -1, Lagrange);
    IterationsEnergy(n, body, x);
    forall p | 0 <= p < n
      ensures OpsEnergy(body(p), x) == OneHotPenalty(ColSum(x, n, p))
    {
      ColPenalty(x, n, p);
    }
    SumRangeExt(n, p => OpsEnergy(body(p), x), p => OneHotPenalty(ColSum(x, n, p)));
  }

  /** The objective terms of facility i at p and facility j elsewhere add LocationTotal. */
  lemma LocationPairsEnergy(F: seq<seq<int>>, L: seq<seq<int>>, x: Sample, n: nat, i: int, j: int, p: int)
    requires i != j
    ensures OpsEnergy(LocationPairOps(F, L, i, j, p, n), x) == LocationTotal(F, L, x, n, i, j, p)
  {
    var body := q => PairTerm(F, L, i, j, p, q);
    IterationsEnergy(n, body, x);
    forall q | 0 <= q < n
      ensures OpsEnergy(body(q), x) == PairCost(F, L, x, i, j, p, q)
    {
      if p != q {
        EnergySingle(AddQuad(Named(i, p), Named(j, q), Cost(F, L, i, j, p, q)), x);
      }
    }
    SumRangeExt(n, q => OpsEnergy(body(q), x), q => PairCost(F, L, x, i, j, p, q));
  }

  /** The objective terms of facilities i and j add PairTotal. */
  lemma LocationsEnergy(F: seq<seq<int>>, L: seq<seq<int>>, x: Sample, n: nat, i: int, j: int)
    requires i != j
    ensures OpsEnergy(LocationOps(F, L, n, i, j, n), x) == PairTotal(F, L, x, n, i, j)
  {
    var body := p => LocationPairOps(F, L, i, j, p, n);
    IterationsEnergy(n, body, x);
    forall p | 0 <= p < n
      ensures OpsEnergy(body(p), x) == LocationTotal(F, L, x, n, i, j, p)
    {
      LocationPairsEnergy(F, L, x, n, i, j, p);
    }
    SumRangeExt(n, p => OpsEnergy(body(p), x), p => LocationTotal(F, L, x, n, i, j, p));
  }

  /** A facility paired with itself costs nothing. */
  lemma SelfPairTotal(F: seq<seq<int>>, L: seq<seq<int>>, x: Sample, n: nat, i: int)
    ensures PairTotal(F, L, x, n, i, i) == 0
  {
    forall p | 0 <= p < n
      ensures LocationTotal(F, L, x, n, i, i, p) == 0
    {
      SumRangeZero(n, q => PairCost(F, L, x, i, i, p, q));
    }
    SumRangeZero(n, p => LocationTotal(F, L, x, n, i, i, p));
  }

  /** The objective terms of facility i add FacilityTotal. */
  lemma PartnersEnergy(F: seq<seq<int>>, L: seq<seq<int>>, x: Sample, n: nat, i: int)
    ensures OpsEnergy(PartnerOps(F, L, n, i, n), x) == FacilityTotal(F, L, x, n, i)
  {
    var body := j => PartnerTerms(F, L, n, i, j);
    IterationsEnergy(n, body, x);
    forall j | 0 <= j < n
      ensures OpsEnergy(body(j), x) == PairTotal(F, L, x, n, i, j)
    {
      if i == j {
        SelfPairTotal(F, L, x, n, i);
      } else {
        LocationsEnergy(F, L, x, n, i, j);
      }
    }
    SumRangeExt(n, j => OpsEnergy(body(j), x), j => PairTotal(F, L, x, n, i, j));
  }

  /** The objective loop adds the QAP objective. */
  lemma ObjectiveEnergy(F: seq<seq<int>>, L: seq<seq<int>>, x: Sample)
    ensures OpsEnergy(ObjectiveOps(F, L, |F|, |F|), x) == Objective(F, L, x)
  {
    var n := |F|;
    var body := i => PartnerOps(F, L, n, i, n);
    IterationsEnergy(n, body, x);
    forall i | 0 <= i < n
      ensures OpsEnergy(body(i), x) == FacilityTotal(F, L, x, n, i)
    {
      PartnersEnergy(F, L, x, n, i);
    }
    SumRangeExt(n, i => OpsEnergy(body(i), x), i => FacilityTotal(F, L, x, n, i));
  }

  /** The energy of a 0/1 sample in the model create_qap_bqm(F, L) builds is
      the QAP objective of its named variables plus their row and column
      penalties. The tuple variables do not enter it. */
  lemma QapModelEnergy(F: seq<seq<int>>, L: seq<seq<int>>, x: Sample)
    requires Binary(x)
    ensures Energy(QapModel(F, L), x) == Objective(F, L, x) + Penalty(x, |F|)
  {
    var n := |F|;
    var a := TupleOps(n, n);
    var b := RowConstraintOps(n, n);
    var c := ColumnConstraintOps(n, n);
    var d := ObjectiveOps(F, L, n, n);
    EnergyApply(Empty, QapOps(F, L), x);
    EnergyEmpty(x);
    EnergyConcat(a + b + c, d, x);
    EnergyConcat(a + b, c, x);
    EnergyConcat(a, b, x);
    TupleEnergy(x, n);
    RowConstraintsEnergy(x, n);
    ColumnConstraintsEnergy(x, n);
    ObjectiveEnergy(F, L, x);
  }
}
