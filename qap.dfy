/** create_qap_bqm(facilities, locations): the encoding of a Quadratic
    Assignment Problem of size n = |facilities| into a binary quadratic model.
    Variable "f{i}_l{p}" (here Named(i, p)) is 1 when facility i sits at
    location p. The builder registers n * n tuple-labelled variables (i, p),
    adds an "exactly one" penalty of multiplier 10 per facility row and per
    location column, and adds facilities[i][j] * locations[p][q] onto the pair
    {f{i}_l{p}, f{j}_l{q}} for every i != j and p != q. */
module Qap {
  import opened Bqm
  import opened Sums

  /** The Lagrange multiplier both families of constraints use. */
  const Lagrange := 10

  /** M has at least n rows of at least n entries each: all that indexing
      M[r][c] for r, c < n needs. */
  predicate Covers(M: seq<seq<int>>, n: nat)
  {
    |M| >= n && forall r :: 0 <= r < n ==> |M[r]| >= n
  }

  /** M[r][c], read as 0 outside M. */
  function At(M: seq<seq<int>>, r: int, c: int): int
  {
    if 0 <= r < |M| && 0 <= c < |M[r]| then M[r][c] else 0
  }

  /** [(f'f{i}_l{p}', 1) for p in range(n)]: facility i is at exactly one location. */
  function RowTerms(n: nat, i: int): (terms: seq<Term>)
    ensures |terms| == n && DistinctVars(terms)
    ensures forall p :: 0 <= p < n ==> terms[p] == (Named(i, p), 1)
  {
    seq(n, p => (Named(i, p), 1))
  }

  /** [(f'f{i}_l{p}', 1) for i in range(n)]: location p holds exactly one facility. */
  function ColTerms(n: nat, p: int): (terms: seq<Term>)
    ensures |terms| == n && DistinctVars(terms)
    ensures forall i :: 0 <= i < n ==> terms[i] == (Named(i, p), 1)
  {
    seq(n, i => (Named(i, p), 1))
  }

  /** The cost of placing facility i at p and facility j at q, as added. */
  function Cost(F: seq<seq<int>>, L: seq<seq<int>>, i: int, j: int, p: int, q: int): int
  {
    At(F, i, j) * At(L, p, q)
  }

  // The operations of each loop of create_qap_bqm, for problem size n.

  /** Line 24 for facility i: add_variable((i, p), 0) for p < k. */
  function TupleRowOps(i: int, k: nat): seq<Op>
  {
    Iterations(k, p => [AddLinear(Tup(i, p), 0)])
  }

  /** Lines 21-24: the tuple variables of the facilities i < k. */
  function TupleOps(n: nat, k: nat): seq<Op>
  {
    Iterations(k, i => TupleRowOps(i, n))
  }

  /** Lines 27-30: the constraints of the facilities i < k. */
  function RowConstraintOps(n: nat, k: nat): seq<Op>
  {
    Iterations(k, i => ConstraintOps(RowTerms(n, i), -1, Lagrange))
  }

  /** Lines 32-36: the constraints of the locations p < k. */
  function ColumnConstraintOps(n: nat, k: nat): seq<Op>
  {
    Iterations(k, p => ConstraintOps(ColTerms(n, p), -1, Lagrange))
  }

  /** The term line 48 adds for facility i at p and facility j at q, when p != q. */
  function PairTerm(F: seq<seq<int>>, L: seq<seq<int>>, i: int, j: int, p: int, q: int): seq<Op>
  {
    if p == q then [] else [AddQuad(Named(i, p), Named(j, q), Cost(F, L, i, j, p, q))]
  }

  /** Lines 43-48 for facility i at p and facility j: the locations q < k. */
  function LocationPairOps(F: seq<seq<int>>, L: seq<seq<int>>, i: int, j: int, p: int, k: nat): seq<Op>
  {
    Iterations(k, q => PairTerm(F, L, i, j, p, q))
  }

  /** Lines 42-48 for facilities i and j: the locations p < k. */
  function LocationOps(F: seq<seq<int>>, L: seq<seq<int>>, n: nat, i: int, j: int, k: nat): seq<Op>
  {
    Iterations(k, p => LocationPairOps(F, L, i, j, p, n))
  }

  /** Lines 41-48 for facility i and facility j, when i != j. */
  function PartnerTerms(F: seq<seq<int>>, L: seq<seq<int>>, n: nat, i: int, j: int): seq<Op>
  {
    if i == j then [] else LocationOps(F, L, n, i, j, n)
  }

  /** Lines 40-48 for facility i: the facilities j < k. */
  function PartnerOps(F: seq<seq<int>>, L: seq<seq<int>>, n: nat, i: int, k: nat): seq<Op>
  {
    Iterations(k, j => PartnerTerms(F, L, n, i, j))
  }

  /** Lines 39-48: the objective terms of the facilities i < k. */
  function ObjectiveOps(F: seq<seq<int>>, L: seq<seq<int>>, n: nat, k: nat): seq<Op>
  {
    Iterations(k, i => PartnerOps(F, L, n, i, n))
  }

  /** Every operation create_qap_bqm(F, L) performs, in order. */
  function QapOps(F: seq<seq<int>>, L: seq<seq<int>>): seq<Op>
  {
    var n := |F|;
    TupleOps(n, n) + RowConstraintOps(n, n) + ColumnConstraintOps(n, n) + ObjectiveOps(F, L, n, n)
  }

  /** The model create_qap_bqm(F, L) returns. */
  function QapModel(F: seq<seq<int>>, L: seq<seq<int>>): Model
  {
    Apply(Empty, QapOps(F, L))
  }

  // One more iteration of each loop.

  lemma TupleRowNext(i: int, k: nat)
    ensures TupleRowOps(i, k + 1) == TupleRowOps(i, k) + [AddLinear(Tup(i, k), 0)]
  {
  }

  lemma TupleNext(n: nat, k: nat)
    ensures TupleOps(n, k + 1) == TupleOps(n, k) + TupleRowOps(k, n)
  {
  }

  lemma RowConstraintNext(n: nat, k: nat)
    ensures RowConstraintOps(n, k + 1) == RowConstraintOps(n, k) + ConstraintOps(RowTerms(n, k), -1, Lagrange)
  {
  }

  lemma ColumnConstraintNext(n: nat, k: nat)
    ensures ColumnConstraintOps(n, k + 1) == ColumnConstraintOps(n, k) + ConstraintOps(ColTerms(n, k), -1, Lagrange)
  {
  }

  lemma LocationPairStep(F: seq<seq<int>>, L: seq<seq<int>>, i: int, j: int, p: int, k: nat)
    ensures LocationPairOps(F, L, i, j, p, k + 1) == LocationPairOps(F, L, i, j, p, k) + PairTerm(F, L, i, j, p, k)
  {
  }

  lemma LocationNext(F: seq<seq<int>>, L: seq<seq<int>>, n: nat, i: int, j: int, k: nat)
    ensures LocationOps(F, L, n, i, j, k + 1) == LocationOps(F, L, n, i, j, k) + LocationPairOps(F, L, i, j, k, n)
  {
  }

  lemma PartnerStep(F: seq<seq<int>>, L: seq<seq<int>>, n: nat, i: int, k: nat)
    ensures PartnerOps(F, L, n, i, k + 1) == PartnerOps(F, L, n, i, k) + PartnerTerms(F, L, n, i, k)
  {
  }

  lemma ObjectiveNext(F: seq<seq<int>>, L: seq<seq<int>>, n: nat, k: nat)
    ensures ObjectiveOps(F, L, n, k + 1) == ObjectiveOps(F, L, n, k) + PartnerOps(F, L, n, k, n)
  {
  }

  /** Line 24 for facility i: add_variable((i, p), 0) for every p < n. */
  method AddTupleRow(bqm: BinaryQuadraticModel, n: nat, i: nat)
    requires bqm.Valid()
    modifies bqm
    ensures bqm.Valid() && bqm.log == old(bqm.log) + TupleRowOps(i, n)
  {
    var p := 0;
    while p < n
      invariant 0 <= p <= n
      invariant bqm.Valid() && bqm.log == old(bqm.log) + TupleRowOps(i, p)
    {
      bqm.AddVariable(Tup(i, p), 0);
      Assoc(old(bqm.log), TupleRowOps(i, p), [AddLinear(Tup(i, p), 0)]);
      TupleRowNext(i, p);
      p := p + 1;
    }
  }

  /** Lines 21-24: the tuple variables of every facility. */
  method AddTupleVariables(bqm: BinaryQuadraticModel, n: nat)
    requires bqm.Valid()
    modifies bqm
    ensures bqm.Valid() && bqm.log == old(bqm.log) + TupleOps(n, n)
  {
    var i := 0;
    while i < n
      invariant 0 <= i <= n
      invariant bqm.Valid() && bqm.log == old(bqm.log) + TupleOps(n, i)
    {
      AddTupleRow(bqm, n, i);
      Assoc(old(bqm.log), TupleOps(n, i), TupleRowOps(i, n));
      TupleNext(n, i);
      i := i + 1;
    }
  }

  /** Lines 27-30: one constraint per facility. */
  method AddRowConstraints(bqm: BinaryQuadraticModel, n: nat)
    requires bqm.Valid()
    modifies bqm
    ensures bqm.Valid() && bqm.log == old(bqm.log) + RowConstraintOps(n, n)
  {
    var i := 0;
    while i < n
      invariant 0 <= i <= n
      invariant bqm.Valid() && bqm.log == old(bqm.log) + RowConstraintOps(n, i)
    {
      bqm.AddLinearEqualityConstraint(RowTerms(n, i), -1, Lagrange);
      Assoc(old(bqm.log), RowConstraintOps(n, i), ConstraintOps(RowTerms(n, i), -1, Lagrange));
      RowConstraintNext(n, i);
      i := i + 1;
    }
  }

  /** Lines 32-36: one constraint per location. */
  method AddColumnConstraints(bqm: BinaryQuadraticModel, n: nat)
    requires bqm.Valid()
    modifies bqm
    ensures bqm.Valid() && bqm.log == old(bqm.log) + ColumnConstraintOps(n, n)
  {
    var p := 0;
    while p < n
      invariant 0 <= p <= n
      invariant bqm.Valid() && bqm.log == old(bqm.log) + ColumnConstraintOps(n, p)
    {
      bqm.AddLinearEqualityConstraint(ColTerms(n, p), -1, Lagrange);
      Assoc(old(bqm.log), ColumnConstraintOps(n, p), ConstraintOps(ColTerms(n, p), -1, Lagrange));
      ColumnConstraintNext(n, p);
      p := p + 1;
    }
  }

  /** Lines 45-48 for facility i at p and facility j at q: the cost term,
      skipped when p == q. */
  method AddPairTerm(bqm: BinaryQuadraticModel, facilities: seq<seq<int>>, locations: seq<seq<int>>, i: nat, j: nat, p: nat, q: nat)
    requires Covers(facilities, |facilities|)
    requires Covers(locations, |facilities|)
    requires i < |facilities| && j < |facilities| && p < |facilities| && q < |facilities|
    requires bqm.Valid()
    modifies bqm
    ensures bqm.Valid()
    ensures bqm.log == old(bqm.log) + PairTerm(facilities, locations, i, j, p, q)
  {
    if p != q {
      var cost := facilities[i][j] * locations[p][q];
      assert cost == Cost(facilities, locations, i, j, p, q);
      bqm.AddQuadratic(Named(i, p), Named(j, q), cost);
    }
  }

  /** Lines 43-48 for facility i at p and facility j: every location q != p. */
  method AddLocationPairs(bqm: BinaryQuadraticModel, facilities: seq<seq<int>>, locations: seq<seq<int>>, i: nat, j: nat, p: nat)
    requires Covers(facilities, |facilities|)
    requires Covers(locations, |facilities|)
    requires i < |facilities|
    requires j < |facilities|
    requires p < |facilities|
    requires bqm.Valid()
    modifies bqm
    ensures bqm.Valid()
    ensures bqm.log == old(bqm.log) + LocationPairOps(facilities, locations, i, j, p, |facilities|)
  {
    var q := 0;
    while q < |facilities|
      invariant 0 <= q <= |facilities|
      invariant bqm.Valid()
      invariant bqm.log == old(bqm.log) + LocationPairOps(facilities, locations, i, j, p, q)
    {
      AddPairTerm(bqm, facilities, locations, i, j, p, q);
      Assoc(old(bqm.log), LocationPairOps(facilities, locations, i, j, p, q), PairTerm(facilities, locations, i, j, p, q));
      LocationPairStep(facilities, locations, i, j, p, q);
      q := q + 1;
    }
  }

  /** Lines 42-48 for facilities i and j: every location p. */
  method AddPairCosts(bqm: BinaryQuadraticModel, facilities: seq<seq<int>>, locations: seq<seq<int>>, i: nat, j: nat)
    requires Covers(facilities, |facilities|)
    requires Covers(locations, |facilities|)
    requires i < |facilities|
    requires j < |facilities|
    requires bqm.Valid()
    modifies bqm
    ensures bqm.Valid()
    ensures bqm.log == old(bqm.log) + LocationOps(facilities, locations, |facilities|, i, j, |facilities|)
  {
    var p := 0;
    while p < |facilities|
      invariant 0 <= p <= |facilities|
      invariant bqm.Valid()
      invariant bqm.log == old(bqm.log) + LocationOps(facilities, locations, |facilities|, i, j, p)
    {
      AddLocationPairs(bqm, facilities, locations, i, j, p);
      Assoc(old(bqm.log), LocationOps(facilities, locations, |facilities|, i, j, p),
            LocationPairOps(facilities, locations, i, j, p, |facilities|));
      LocationNext(facilities, locations, |facilities|, i, j, p);
      p := p + 1;
    }
  }

  /** Lines 40-48 for facility i: every other facility j. */
  method AddPartnerCosts(bqm: BinaryQuadraticModel, facilities: seq<seq<int>>, locations: seq<seq<int>>, i: nat)
    requires Covers(facilities, |facilities|)
    requires Covers(locations, |facilities|)
    requires i < |facilities|
    requires bqm.Valid()
    modifies bqm
    ensures bqm.Valid()
    ensures bqm.log == old(bqm.log) + PartnerOps(facilities, locations, |facilities|, i, |facilities|)
  {
    var j := 0;
    while j < |facilities|
      invariant 0 <= j <= |facilities|
      invariant bqm.Valid()
      invariant bqm.log == old(bqm.log) + PartnerOps(facilities, locations, |facilities|, i, j)
    {
      if i != j {
        AddPairCosts(bqm, facilities, locations, i, j);
      }
      assert bqm.log == old(bqm.log) + PartnerOps(facilities, locations, |facilities|, i, j)
                        + PartnerTerms(facilities, locations, |facilities|, i, j);
      Assoc(old(bqm.log), PartnerOps(facilities, locations, |facilities|, i, j),
            PartnerTerms(facilities, locations, |facilities|, i, j));
      PartnerStep(facilities, locations, |facilities|, i, j);
      j := j + 1;
    }
  }

  /** Lines 39-48: the objective. */
  method AddObjective(bqm: BinaryQuadraticModel, facilities: seq<seq<int>>, locations: seq<seq<int>>)
    requires Covers(facilities, |facilities|)
    requires Covers(locations, |facilities|)
    requires bqm.Valid()
    modifies bqm
    ensures bqm.Valid()
    ensures bqm.log == old(bqm.log) + ObjectiveOps(facilities, locations, |facilities|, |facilities|)
  {
    var i := 0;
    while i < |facilities|
      invariant 0 <= i <= |facilities|
      invariant bqm.Valid()
      invariant bqm.log == old(bqm.log) + ObjectiveOps(facilities, locations, |facilities|, i)
    {
      AddPartnerCosts(bqm, facilities, locations, i);
      Assoc(old(bqm.log), ObjectiveOps(facilities, locations, |facilities|, i),
            PartnerOps(facilities, locations, |facilities|, i, |facilities|));
      ObjectiveNext(facilities, locations, |facilities|, i);
      i := i + 1;
    }
  }

  /** create_qap_bqm(facilities, locations): a fresh model holding exactly
      QapModel(facilities, locations). */
  method CreateQapBqm(facilities: seq<seq<int>>, locations: seq<seq<int>>) returns (bqm: BinaryQuadraticModel)
    requires Covers(facilities, |facilities|)
    requires Covers(locations, |facilities|)
    ensures fresh(bqm) && bqm.Valid()
    ensures bqm.log == QapOps(facilities, locations)
    ensures bqm.Value() == QapModel(facilities, locations)
  {
    bqm := new BinaryQuadraticModel();
    AddTupleVariables(bqm, |facilities|);
    AddRowConstraints(bqm, |facilities|);
    AddColumnConstraints(bqm, |facilities|);
    AddObjective(bqm, facilities, locations);
    EmptyPrefix(TupleOps(|facilities|, |facilities|));
  }
}
