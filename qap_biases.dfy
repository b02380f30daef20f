/** The variables and biases of the model create_qap_bqm builds: the n * n
    tuple variables carry bias 0 and touch no pair, every named variable
    carries -20 from its row and its column constraint, two named variables
    of one facility or of one location share the penalty bias 20, and two
    named variables of different facilities at different locations share
    exactly the two flow-times-distance products of the objective. */
module QapBiases {
  import opened Sums
  import opened Bqm
  import opened Qap

  /** An operation of the tuple loop: a tuple variable below n, with bias 0. */
  predicate TupleShaped(op: Op, n: nat)
  {
    op.AddLinear? && op.v.Tup? && 0 <= op.v.i < n && 0 <= op.v.p < n && op.b == 0
  }

  /** An objective term: two named variables below n, of different facilities
      and at different locations. */
  predicate ObjectiveShaped(op: Op, n: nat)
  {
    op.AddQuad? && op.u.Named? && op.v.Named? &&
    0 <= op.u.i < n && 0 <= op.u.p < n && 0 <= op.v.i < n && 0 <= op.v.p < n &&
    op.u.i != op.v.i && op.u.p != op.v.p
  }

  /** Lines 21-24 only add bias 0 to tuple variables (i, p) with i, p < n. */
  lemma TupleOpsShape(n: nat)
    ensures forall m :: 0 <= m < |TupleOps(n, n)| ==> TupleShaped(TupleOps(n, n)[m], n)
  {
    forall i | 0 <= i < n
      ensures forall m :: 0 <= m < |TupleRowOps(i, n)| ==> TupleShaped(TupleRowOps(i, n)[m], n)
    {
      IterationsOps(n, p => [AddLinear(Tup(i, p), 0)], op => TupleShaped(op, n));
    }
    IterationsOps(n, i => TupleRowOps(i, n), op => TupleShaped(op, n));
  }

  /** The locations loop of facilities i != j only adds objective terms. */
  lemma LocationOpsShape(F: seq<seq<int>>, L: seq<seq<int>>, n: nat, i: int, j: int)
    requires 0 <= i < n && 0 <= j < n && i != j
    ensures forall m :: 0 <= m < |LocationOps(F, L, n, i, j, n)| ==> ObjectiveShaped(LocationOps(F, L, n, i, j, n)[m], n)
  {
    forall p | 0 <= p < n
      ensures forall m :: 0 <= m < |LocationPairOps(F, L, i, j, p, n)| ==> ObjectiveShaped(LocationPairOps(F, L, i, j, p, n)[m], n)
    {
      IterationsOps(n, q => PairTerm(F, L, i, j, p, q), op => ObjectiveShaped(op, n));
    }
    IterationsOps(n, p => LocationPairOps(F, L, i, j, p, n), op => ObjectiveShaped(op, n));
  }

  /** Lines 39-48 never pair a variable with one of its own facility or its
      own location, and so never with itself. */
  lemma ObjectiveOpsShape(F: seq<seq<int>>, L: seq<seq<int>>, n: nat)
    ensures forall m :: 0 <= m < |ObjectiveOps(F, L, n, n)| ==> ObjectiveShaped(ObjectiveOps(F, L, n, n)[m], n)
  {
    forall i | 0 <= i < n
      ensures forall m :: 0 <= m < |PartnerOps(F, L, n, i, n)| ==> ObjectiveShaped(PartnerOps(F, L, n, i, n)[m], n)
    {
      forall j | 0 <= j < n && i != j
        ensures forall m :: 0 <= m < |PartnerTerms(F, L, n, i, j)| ==> ObjectiveShaped(PartnerTerms(F, L, n, i, j)[m], n)
      {
        LocationOpsShape(F, L, n, i, j);
      }
      IterationsOps(n, j => PartnerTerms(F, L, n, i, j), op => ObjectiveShaped(op, n));
    }
    IterationsOps(n, i => PartnerOps(F, L, n, i, n), op => ObjectiveShaped(op, n));
  }

  /** Row i's constraint mentions exactly f{i}_l{p} for p < n. */
  lemma RowMentions(n: nat, r: int, w: Var)
    ensures Mentions(RowTerms(n, r), w) <==> w.Named? && w.i == r && 0 <= w.p < n
  {
    if w.Named? && w.i == r && 0 <= w.p < n {
      assert RowTerms(n, r)[w.p].0 == w;
    }
  }

  /** Column p's constraint mentions exactly f{i}_l{p} for i < n. */
  lemma ColMentions(n: nat, c: int, w: Var)
    ensures Mentions(ColTerms(n, c), w) <==> w.Named? && w.p == c && 0 <= w.i < n
  {
    if w.Named? && w.p == c && 0 <= w.i < n {
      assert ColTerms(n, c)[w.i].0 == w;
    }
  }

  // One row or column constraint.

  /** Row r's constraint creates f{r}_l{p} for p < n and nothing else. */
  lemma RowConstraintVars(n: nat, r: int, w: Var)
    ensures w in OpVars(ConstraintOps(RowTerms(n, r), -1, Lagrange)) <==> w.Named? && w.i == r && 0 <= w.p < n
  {
    ConstraintLinear(RowTerms(n, r), -1, Lagrange, w);
    TermVarsMentions(RowTerms(n, r), n, w);
    RowMentions(n, r, w);
  }

  /** Column c's constraint creates f{i}_l{c} for i < n and nothing else. */
  lemma ColumnConstraintVars(n: nat, c: int, w: Var)
    ensures w in OpVars(ConstraintOps(ColTerms(n, c), -1, Lagrange)) <==> w.Named? && w.p == c && 0 <= w.i < n
  {
    ConstraintLinear(ColTerms(n, c), -1, Lagrange, w);
    TermVarsMentions(ColTerms(n, c), n, w);
    ColMentions(n, c, w);
  }

  /** Row r's constraint adds 10 * (2 * (-1) * 1 + 1) = -10 to each of its variables. */
  lemma RowConstraintLinear(n: nat, r: int, w: Var)
    ensures LinearOn(ConstraintOps(RowTerms(n, r), -1, Lagrange), w) ==
      if w.Named? && w.i == r && 0 <= w.p < n then SelfBias(1, -1, Lagrange) else 0
  {
    ConstraintLinear(RowTerms(n, r), -1, Lagrange, w);
    RowMentions(n, r, w);
    if w.Named? && w.i == r && 0 <= w.p < n {
      assert RowTerms(n, r)[w.p].0 == w;
    }
  }

  /** Column c's constraint adds -10 to each of its variables. */
  lemma ColumnConstraintLinear(n: nat, c: int, w: Var)
    ensures LinearOn(ConstraintOps(ColTerms(n, c), -1, Lagrange), w) ==
      if w.Named? && w.p == c && 0 <= w.i < n then SelfBias(1, -1, Lagrange) else 0
  {
    ConstraintLinear(ColTerms(n, c), -1, Lagrange, w);
    ColMentions(n, c, w);
    if w.Named? && w.p == c && 0 <= w.i < n {
      assert ColTerms(n, c)[w.i].0 == w;
    }
  }

  /** A row constraint adds nothing to a pair holding a tuple variable. */
  lemma RowConstraintTupleFree(n: nat, r: int, e: Edge)
    requires e.lo.Tup? || e.hi.Tup?
    ensures QuadOn(ConstraintOps(RowTerms(n, r), -1, Lagrange), e) == 0
  {
    RowMentions(n, r, e.lo);
    RowMentions(n, r, e.hi);
    ConstraintElsewhere(RowTerms(n, r), -1, Lagrange, e);
  }

  /** A column constraint adds nothing to a pair holding a tuple variable. */
  lemma ColumnConstraintTupleFree(n: nat, c: int, e: Edge)
    requires e.lo.Tup? || e.hi.Tup?
    ensures QuadOn(ConstraintOps(ColTerms(n, c), -1, Lagrange), e) == 0
  {
    ColMentions(n, c, e.lo);
    ColMentions(n, c, e.hi);
    ConstraintElsewhere(ColTerms(n, c), -1, Lagrange, e);
  }

  // The variables.

  lemma TupleRowVars(n: nat, i: int, w: Var)
    ensures w in OpVars(TupleRowOps(i, n)) <==> w.Tup? && w.i == i && 0 <= w.p < n
  {
    var body := p => [AddLinear(Tup(i, p), 0)];
    IterationsVars(n, body, w);
    if w.Tup? && w.i == i && 0 <= w.p < n {
      VarsSingle(AddLinear(w, 0));
      assert w in OpVars(body(w.p));
    }
    if w in OpVars(TupleRowOps(i, n)) {
      var t :| 0 <= t < n && w in OpVars(body(t));
      VarsSingle(AddLinear(Tup(i, t), 0));
    }
  }

  lemma TupleVars(n: nat, w: Var)
    ensures w in OpVars(TupleOps(n, n)) <==> w.Tup? && 0 <= w.i < n && 0 <= w.p < n
  {
    var body := i => TupleRowOps(i, n);
    IterationsVars(n, body, w);
    if w.Tup? && 0 <= w.i < n && 0 <= w.p < n {
      TupleRowVars(n, w.i, w);
      assert w in OpVars(body(w.i));
    }
    if w in OpVars(TupleOps(n, n)) {
      var t :| 0 <= t < n && w in OpVars(body(t));
      TupleRowVars(n, t, w);
    }
  }

  lemma RowVars(n: nat, w: Var)
    ensures w in OpVars(RowConstraintOps(n, n)) <==> w.Named? && 0 <= w.i < n && 0 <= w.p < n
  {
    var body := r => ConstraintOps(RowTerms(n, r), -1, Lagrange);
    IterationsVars(n, body, w);
    if w.Named? && 0 <= w.i < n && 0 <= w.p < n {
      RowConstraintVars(n, w.i, w);
      assert w in OpVars(body(w.i));
    }
    if w in OpVars(RowConstraintOps(n, n)) {
      var t :| 0 <= t < n && w in OpVars(body(t));
      RowConstraintVars(n, t, w);
    }
  }

  lemma ColumnVars(n: nat, w: Var)
    ensures w in OpVars(ColumnConstraintOps(n, n)) <==> w.Named? && 0 <= w.i < n && 0 <= w.p < n
  {
    var body := c => ConstraintOps(ColTerms(n, c), -1, Lagrange);
    IterationsVars(n, body, w);
    if w.Named? && 0 <= w.i < n && 0 <= w.p < n {
      ColumnConstraintVars(n, w.p, w);
      assert w in OpVars(body(w.p));
    }
    if w in OpVars(ColumnConstraintOps(n, n)) {
      var t :| 0 <= t < n && w in OpVars(body(t));
      ColumnConstraintVars(n, t, w);
    }
  }

  /** The objective only pairs named variables below n. */
  lemma ObjectiveVars(F: seq<seq<int>>, L: seq<seq<int>>, n: nat, w: Var)
    ensures w in OpVars(ObjectiveOps(F, L, n, n)) ==> w.Named? && 0 <= w.i < n && 0 <= w.p < n
  {
    ObjectiveOpsShape(F, L, n);
    VarsWithin(ObjectiveOps(F, L, n, n), (v: Var) => v.Named? && 0 <= v.i < n && 0 <= v.p < n);
  }

  /** The model create_qap_bqm(F, L) has exactly the variables (i, p) and
      f{i}_l{p} for i, p < n = |F|: 2 * n * n of them. */
  lemma QapVariables(F: seq<seq<int>>, L: seq<seq<int>>, w: Var)
    ensures w in QapModel(F, L).linear <==> 0 <= w.i < |F| && 0 <= w.p < |F|
  {
    var n := |F|;
    var a, b, c, d := TupleOps(n, n), RowConstraintOps(n, n), ColumnConstraintOps(n, n), ObjectiveOps(F, L, n, n);
    BiasesApply(Empty, QapOps(F, L), w, Key(Tup(0, 0), Tup(0, 1)));
    VarsConcat(a + b + c, d);
    VarsConcat(a + b, c);
    VarsConcat(a, b);
    TupleVars(n, w);
    RowVars(n, w);
    ColumnVars(n, w);
    ObjectiveVars(F, L, n, w);
  }

  // The linear biases.

  lemma RowLinear(n: nat, w: Var)
    ensures LinearOn(RowConstraintOps(n, n), w) == if w.Named? && 0 <= w.i < n && 0 <= w.p < n then SelfBias(1, -1, Lagrange) else 0
  {
    var body := r => ConstraintOps(RowTerms(n, r), -1, Lagrange);
    IterationsLinear(n, body, w);
    var f := r => LinearOn(body(r), w);
    forall r | 0 <= r < n
      ensures f(r) == if w.Named? && w.i == r && 0 <= w.p < n then SelfBias(1, -1, Lagrange) else 0
    {
      RowConstraintLinear(n, r, w);
    }
    if w.Named? && 0 <= w.i < n && 0 <= w.p < n {
      SumRangeSingle(n, f, w.i);
    } else {
      SumRangeZero(n, f);
    }
  }

  lemma ColumnLinear(n: nat, w: Var)
    ensures LinearOn(ColumnConstraintOps(n, n), w) == if w.Named? && 0 <= w.i < n && 0 <= w.p < n then SelfBias(1, -1, Lagrange) else 0
  {
    var body := c => ConstraintOps(ColTerms(n, c), -1, Lagrange);
    IterationsLinear(n, body, w);
    var f := c => LinearOn(body(c), w);
    forall c | 0 <= c < n
      ensures f(c) == if w.Named? && w.p == c && 0 <= w.i < n then SelfBias(1, -1, Lagrange) else 0
    {
      ColumnConstraintLinear(n, c, w);
    }
    if w.Named? && 0 <= w.i < n && 0 <= w.p < n {
      SumRangeSingle(n, f, w.p);
    } else {
      SumRangeZero(n, f);
    }
  }

  /** Every tuple variable has linear bias 0, and every named variable
      f{i}_l{p} has -20: -10 from the constraint of facility i and -10 from
      the constraint of location p, each 10 * (2 * (-1) * 1 + 1 * 1). */
  lemma QapLinearBias(F: seq<seq<int>>, L: seq<seq<int>>, w: Var)
    ensures LinearBias(QapModel(F, L), w) == if w.Named? && 0 <= w.i < |F| && 0 <= w.p < |F| then -2 * Lagrange else 0
  {
    var n := |F|;
    var a, b, c, d := TupleOps(n, n), RowConstraintOps(n, n), ColumnConstraintOps(n, n), ObjectiveOps(F, L, n, n);
    BiasesApply(Empty, QapOps(F, L), w, Key(Tup(0, 0), Tup(0, 1)));
    LinearConcat(a + b + c, d, w);
    LinearConcat(a + b, c, w);
    LinearConcat(a, b, w);
    TupleOpsShape(n);
    LinearOnZero(a, w);
    RowLinear(n, w);
    ColumnLinear(n, w);
    ObjectiveOpsShape(F, L, n);
    LinearOnZero(d, w);
  }

  // The quadratic biases.

  lemma RowsTupleFree(n: nat, e: Edge)
    requires e.lo.Tup? || e.hi.Tup?
    ensures QuadOn(RowConstraintOps(n, n), e) == 0
  {
    var body := r => ConstraintOps(RowTerms(n, r), -1, Lagrange);
    IterationsQuad(n, body, e);
    forall r | 0 <= r < n
      ensures QuadOn(body(r), e) == 0
    {
      RowConstraintTupleFree(n, r, e);
    }
    SumRangeZero(n, r => QuadOn(body(r), e));
  }

  lemma ColumnsTupleFree(n: nat, e: Edge)
    requires e.lo.Tup? || e.hi.Tup?
    ensures QuadOn(ColumnConstraintOps(n, n), e) == 0
  {
    var body := c => ConstraintOps(ColTerms(n, c), -1, Lagrange);
    IterationsQuad(n, body, e);
    forall c | 0 <= c < n
      ensures QuadOn(body(c), e) == 0
    {
      ColumnConstraintTupleFree(n, c, e);
    }
    SumRangeZero(n, c => QuadOn(body(c), e));
  }

  /** A tuple variable is never paired: every pair that holds one has bias 0. */
  lemma TupleIsolated(F: seq<seq<int>>, L: seq<seq<int>>, e: Edge)
    requires e.lo.Tup? || e.hi.Tup?
    ensures QuadraticBias(QapModel(F, L), e) == 0
  {
    var n := |F|;
    var a, b, c, d := TupleOps(n, n), RowConstraintOps(n, n), ColumnConstraintOps(n, n), ObjectiveOps(F, L, n, n);
    BiasesApply(Empty, QapOps(F, L), Tup(0, 0), e);
    QuadConcat(a + b + c, d, e);
    QuadConcat(a + b, c, e);
    QuadConcat(a, b, e);
    TupleOpsShape(n);
    QuadOnZero(a, e);
    RowsTupleFree(n, e);
    ColumnsTupleFree(n, e);
    ObjectiveOpsShape(F, L, n);
    QuadOnZero(d, e);
  }

  /** The pair {f{i}_l{p}, f{j}_l{q}}. */
  function NamedKey(i: int, p: int, j: int, q: int): Edge
    requires i != j || p != q
  {
    Key(Named(i, p), Named(j, q))
  }

  lemma PairTermQuad(F: seq<seq<int>>, L: seq<seq<int>>, i: int, p: int, j: int, q: int, i': int, j': int, p': int, q': int)
    requires i != j || p != q
    ensures QuadOn(PairTerm(F, L, i', j', p', q'), NamedKey(i, p, j, q)) ==
      if p' != q' && ((i' == i && p' == p && j' == j && q' == q) || (i' == j && p' == q && j' == i && q' == p))
      then Cost(F, L, i', j', p', q') else 0
  {
    if p' != q' {
      QuadSingle(AddQuad(Named(i', p'), Named(j', q'), Cost(F, L, i', j', p', q')), NamedKey(i, p, j, q));
      KeyUnordered(Named(i', p'), Named(j', q'), Named(i, p), Named(j, q));
    }
  }

  lemma LocationPairQuad(F: seq<seq<int>>, L: seq<seq<int>>, n: nat, i: int, p: int, j: int, q: int, i': int, j': int, p': int)
    requires (i != j || p != q) && 0 <= p < n && 0 <= q < n
    ensures QuadOn(LocationPairOps(F, L, i', j', p', n), NamedKey(i, p, j, q)) ==
      (if i' == i && j' == j && p' == p && p != q then Cost(F, L, i, j, p, q) else 0) +
      (if i' == j && j' == i && p' == q && p != q then Cost(F, L, j, i, q, p) else 0)
  {
    var e := NamedKey(i, p, j, q);
    var body := q' => PairTerm(F, L, i', j', p', q');
    IterationsQuad(n, body, e);
    var f := q' => QuadOn(body(q'), e);
    forall q' | 0 <= q' < n
      ensures f(q') ==
        if p' != q' && ((i' == i && p' == p && j' == j && q' == q) || (i' == j && p' == q && j' == i && q' == p))
        then Cost(F, L, i', j', p', q') else 0
    {
      PairTermQuad(F, L, i, p, j, q, i', j', p', q');
    }
    if i' == i && j' == j && p' == p && p != q {
      SumRangeSingle(n, f, q);
    } else if i' == j && j' == i && p' == q && p != q {
      SumRangeSingle(n, f, p);
    } else {
      SumRangeZero(n, f);
    }
  }

  lemma LocationsQuad(F: seq<seq<int>>, L: seq<seq<int>>, n: nat, i: int, p: int, j: int, q: int, i': int, j': int)
    requires (i != j || p != q) && 0 <= p < n && 0 <= q < n && i' != j'
    ensures QuadOn(LocationOps(F, L, n, i', j', n), NamedKey(i, p, j, q)) ==
      (if i' == i && j' == j && p != q then Cost(F, L, i, j, p, q) else 0) +
      (if i' == j && j' == i && p != q then Cost(F, L, j, i, q, p) else 0)
  {
    var e := NamedKey(i, p, j, q);
    var body := p' => LocationPairOps(F, L, i', j', p', n);
    IterationsQuad(n, body, e);
    var f := p' => QuadOn(body(p'), e);
    forall p' | 0 <= p' < n
      ensures f(p') ==
        (if i' == i && j' == j && p' == p && p != q then Cost(F, L, i, j, p, q) else 0) +
        (if i' == j && j' == i && p' == q && p != q then Cost(F, L, j, i, q, p) else 0)
    {
      LocationPairQuad(F, L, n, i, p, j, q, i', j', p');
    }
    if i' == i && j' == j && p != q {
      SumRangeSingle(n, f, p);
    } else if i' == j && j' == i && p != q {
      SumRangeSingle(n, f, q);
    } else {
      SumRangeZero(n, f);
    }
  }

  lemma PartnersQuad(F: seq<seq<int>>, L: seq<seq<int>>, n: nat, i: int, p: int, j: int, q: int, i': int)
    requires (i != j || p != q) && 0 <= i < n && 0 <= j < n && 0 <= p < n && 0 <= q < n
    ensures QuadOn(PartnerOps(F, L, n, i', n), NamedKey(i, p, j, q)) ==
      (if i' == i && i != j && p != q then Cost(F, L, i, j, p, q) else 0) +
      (if i' == j && i != j && p != q then Cost(F, L, j, i, q, p) else 0)
  {
    var e := NamedKey(i, p, j, q);
    var body := j' => PartnerTerms(F, L, n, i', j');
    IterationsQuad(n, body, e);
    var f := j' => QuadOn(body(j'), e);
    forall j' | 0 <= j' < n
      ensures f(j') == if i' == j' then 0 else
        (if i' == i && j' == j && p != q then Cost(F, L, i, j, p, q) else 0) +
        (if i' == j && j' == i && p != q then Cost(F, L, j, i, q, p) else 0)
    {
      if i' != j' {
        LocationsQuad(F, L, n, i, p, j, q, i', j');
      } else {
        assert body(j') == [];
      }
    }
    if i' == i && i != j && p != q {
      SumRangeSingle(n, f, j);
    } else if i' == j && i != j && p != q {
      SumRangeSingle(n, f, i);
    } else {
      SumRangeZero(n, f);
    }
  }

  lemma ObjectiveQuad(F: seq<seq<int>>, L: seq<seq<int>>, i: int, p: int, j: int, q: int)
    requires (i != j || p != q) && 0 <= i < |F| && 0 <= j < |F| && 0 <= p < |F| && 0 <= q < |F|
    ensures QuadOn(ObjectiveOps(F, L, |F|, |F|), NamedKey(i, p, j, q)) ==
      if i != j && p != q then Cost(F, L, i, j, p, q) + Cost(F, L, j, i, q, p) else 0
  {
    var n := |F|;
    var e := NamedKey(i, p, j, q);
    var body := i' => PartnerOps(F, L, n, i', n);
    IterationsQuad(n, body, e);
    var f := i' => QuadOn(body(i'), e);
    forall i' | 0 <= i' < n
      ensures f(i') ==
        (if i' == i && i != j && p != q then Cost(F, L, i, j, p, q) else 0) +
        (if i' == j && i != j && p != q then Cost(F, L, j, i, q, p) else 0)
    {
      PartnersQuad(F, L, n, i, p, j, q, i');
    }
    if i != j && p != q {
      SumRangePair(n, f, i, j);
    } else {
      SumRangeZero(n, f);
    }
  }

  /** Row r's constraint adds 2 * 10 * 1 * 1 = 20 to a pair of its own
      variables and nothing to any other pair. */
  lemma RowConstraintQuad(n: nat, r: int, i: int, p: int, j: int, q: int)
    requires (i != j || p != q) && 0 <= i < n && 0 <= p < n && 0 <= q < n
    ensures QuadOn(ConstraintOps(RowTerms(n, r), -1, Lagrange), NamedKey(i, p, j, q)) ==
      if r == i && i == j then PairBias(1, 1, Lagrange) else 0
  {
    var e := NamedKey(i, p, j, q);
    if r == i && i == j {
      var s, t := if p < q then p else q, if p < q then q else p;
      ConstraintPairBias(RowTerms(n, r), -1, Lagrange, s, t);
      KeyUnordered(Named(r, s), Named(r, t), Named(i, p), Named(j, q));
    } else {
      RowMentions(n, r, e.lo);
      RowMentions(n, r, e.hi);
      ConstraintElsewhere(RowTerms(n, r), -1, Lagrange, e);
    }
  }

  /** Column c's constraint adds 20 to a pair of its own variables and
      nothing to any other pair. */
  lemma ColumnConstraintQuad(n: nat, c: int, i: int, p: int, j: int, q: int)
    requires (i != j || p != q) && 0 <= i < n && 0 <= j < n && 0 <= p < n
    ensures QuadOn(ConstraintOps(ColTerms(n, c), -1, Lagrange), NamedKey(i, p, j, q)) ==
      if c == p && p == q then PairBias(1, 1, Lagrange) else 0
  {
    var e := NamedKey(i, p, j, q);
    if c == p && p == q {
      var s, t := if i < j then i else j, if i < j then j else i;
      ConstraintPairBias(ColTerms(n, c), -1, Lagrange, s, t);
      KeyUnordered(Named(s, c), Named(t, c), Named(i, p), Named(j, q));
    } else {
      ColMentions(n, c, e.lo);
      ColMentions(n, c, e.hi);
      ConstraintElsewhere(ColTerms(n, c), -1, Lagrange, e);
    }
  }

  lemma RowsQuad(n: nat, i: int, p: int, j: int, q: int)
    requires (i != j || p != q) && 0 <= i < n && 0 <= p < n && 0 <= q < n
    ensures QuadOn(RowConstraintOps(n, n), NamedKey(i, p, j, q)) == if i == j then PairBias(1, 1, Lagrange) else 0
  {
    var e := NamedKey(i, p, j, q);
    var body := r => ConstraintOps(RowTerms(n, r), -1, Lagrange);
    IterationsQuad(n, body, e);
    var f := r => QuadOn(body(r), e);
    forall r | 0 <= r < n
      ensures f(r) == if r == i && i == j then PairBias(1, 1, Lagrange) else 0
    {
      RowConstraintQuad(n, r, i, p, j, q);
    }
    if i == j {
      SumRangeSingle(n, f, i);
    } else {
      SumRangeZero(n, f);
    }
  }

  lemma ColumnsQuad(n: nat, i: int, p: int, j: int, q: int)
    requires (i != j || p != q) && 0 <= i < n && 0 <= j < n && 0 <= p < n
    ensures QuadOn(ColumnConstraintOps(n, n), NamedKey(i, p, j, q)) == if p == q then PairBias(1, 1, Lagrange) else 0
  {
    var e := NamedKey(i, p, j, q);
    var body := c => ConstraintOps(ColTerms(n, c), -1, Lagrange);
    IterationsQuad(n, body, e);
    var f := c => QuadOn(body(c), e);
    forall c | 0 <= c < n
      ensures f(c) == if c == p && p == q then PairBias(1, 1, Lagrange) else 0
    {
      ColumnConstraintQuad(n, c, i, p, j, q);
    }
    if p == q {
      SumRangeSingle(n, f, p);
    } else {
      SumRangeZero(n, f);
    }
  }

  /** The bias on the pair {f{i}_l{p}, f{j}_l{q}} of two different named
      variables: 20 when they share a facility (the row constraint), 20 when
      they share a location (the column constraint), and otherwise
      facilities[i][j] * locations[p][q] + facilities[j][i] * locations[q][p],
      the objective term added once from each side. No pair gets both. */
  lemma QapQuadraticBias(F: seq<seq<int>>, L: seq<seq<int>>, i: int, p: int, j: int, q: int)
    requires Covers(F, |F|) && Covers(L, |F|)
    requires 0 <= i < |F| && 0 <= j < |F| && 0 <= p < |F| && 0 <= q < |F|
    requires i != j || p != q
    ensures QuadraticBias(QapModel(F, L), NamedKey(i, p, j, q)) ==
      if i == j || p == q then 2 * Lagrange
      else F[i][j] * L[p][q] + F[j][i] * L[q][p]
  {
    var n := |F|;
    var e := NamedKey(i, p, j, q);
    var a, b, c, d := TupleOps(n, n), RowConstraintOps(n, n), ColumnConstraintOps(n, n), ObjectiveOps(F, L, n, n);
    BiasesApply(Empty, QapOps(F, L), Tup(0, 0), e);
    QuadConcat(a + b + c, d, e);
    QuadConcat(a + b, c, e);
    QuadConcat(a, b, e);
    TupleOpsShape(n);
    QuadOnZero(a, e);
    RowsQuad(n, i, p, j, q);
    ColumnsQuad(n, i, p, j, q);
    ObjectiveQuad(F, L, i, p, j, q);
  }

  /** add_quadratic is never asked to pair a variable with itself: every
      operation the builder performs is a linear one, or pairs two different
      variables. */
  lemma QapNoSelfPairs(F: seq<seq<int>>, L: seq<seq<int>>)
    ensures NoSelfPairs(QapOps(F, L))
  {
    var n := |F|;
    TupleOpsShape(n);
    ObjectiveOpsShape(F, L, n);
    var rows := (i: int) => ConstraintOps(RowTerms(n, i), -1, Lagrange);
    var cols := (p: int) => ConstraintOps(ColTerms(n, p), -1, Lagrange);
    IterationsOps(n, rows, NoSelfPair);
    IterationsOps(n, cols, NoSelfPair);
    var a, b, c, d := TupleOps(n, n), RowConstraintOps(n, n), ColumnConstraintOps(n, n), ObjectiveOps(F, L, n, n);
    NoSelfPairsConcat(a, b);
    NoSelfPairsConcat(a + b, c);
    NoSelfPairsConcat(a + b + c, d);
  }

  lemma NoSelfPairsConcat(a: seq<Op>, b: seq<Op>)
    requires NoSelfPairs(a) && NoSelfPairs(b)
    ensures NoSelfPairs(a + b)
  {
    assert forall m :: 0 <= m < |a + b| ==> (a + b)[m] == if m < |a| then a[m] else b[m - |a|];
  }
}
