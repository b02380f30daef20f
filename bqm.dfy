/** A binary quadratic model as the QAP builder uses it: linear biases per
    variable, quadratic biases per unordered pair of distinct variables, and a
    constant offset. Every operation accumulates onto what is already there. The
    energy of a 0/1 sample is the offset plus every linear bias times its
    variable plus every quadratic bias times the product of its two variables. */
module Bqm {
  import opened Sums

  /** The two kinds of variable label the builder creates: the tuple (i, p)
      and the string "f{i}_l{p}". Both name "facility i at location p", but
      they are different labels, hence different variables. */
  datatype Var = Tup(i: int, p: int) | Named(i: int, p: int)

  /** A strict total order on labels, used only to store an unordered pair once. */
  predicate Before(u: Var, v: Var)
  {
    var tu, tv := if u.Tup? then 0 else 1, if v.Tup? then 0 else 1;
    tu < tv || (tu == tv && (u.i < v.i || (u.i == v.i && u.p < v.p)))
  }

  /** An unordered pair of distinct variables, stored with lo before hi. */
  datatype Edge = Edge(lo: Var, hi: Var)

  function Key(u: Var, v: Var): (e: Edge)
    requires u != v
    ensures (e.lo == u && e.hi == v) || (e.lo == v && e.hi == u)
    ensures Before(e.lo, e.hi)
  {
    if Before(u, v) then Edge(u, v) else Edge(v, u)
  }

  /** The key of a pair does not depend on the order of its two variables, and
      two pairs share a key exactly when they hold the same two variables. */
  lemma KeyUnordered(u: Var, v: Var, u': Var, v': Var)
    requires u != v && u' != v'
    ensures Key(u, v) == Key(v, u)
    ensures Key(u, v) == Key(u', v') <==> (u == u' && v == v') || (u == v' && v == u')
  {
  }

  datatype Model = Model(linear: map<Var, int>, quadratic: map<Edge, int>, offset: int)

  /** The model BinaryQuadraticModel('BINARY') starts from. */
  const Empty: Model := Model(map[], map[], 0)

  function LinearBias(m: Model, v: Var): int
  {
    if v in m.linear then m.linear[v] else 0
  }

  function QuadraticBias(m: Model, e: Edge): int
  {
    if e in m.quadratic then m.quadratic[e] else 0
  }

  /** A sample assigns 0 or 1 to variables; a variable it leaves out reads as 0. */
  type Sample = map<Var, int>

  function X(x: Sample, v: Var): int
  {
    if v in x then x[v] else 0
  }

  predicate Binary(x: Sample)
  {
    forall v :: v in x ==> x[v] == 0 || x[v] == 1
  }

  /** The sum of every linear bias times its variable. */
  ghost function LinearSum(linear: map<Var, int>, x: Sample): int
    decreases |linear|
  {
    if linear == map[] then 0
    else var v :| v in linear; linear[v] * X(x, v) + LinearSum(linear - {v}, x)
  }

  /** The sum of every quadratic bias times the product of its two variables. */
  ghost function QuadraticSum(quadratic: map<Edge, int>, x: Sample): int
    decreases |quadratic|
  {
    if quadratic == map[] then 0
    else var e :| e in quadratic; quadratic[e] * (X(x, e.lo) * X(x, e.hi)) + QuadraticSum(quadratic - {e}, x)
  }

  /** The energy of sample x in model m. */
  ghost function Energy(m: Model, x: Sample): int
  {
    m.offset + LinearSum(m.linear, x) + QuadraticSum(m.quadratic, x)
  }

  lemma EnergyEmpty(x: Sample)
    ensures Energy(Empty, x) == 0
  {
  }

  /** Whichever variable is taken out first, the linear sum is the same. */
  lemma {:induction false} LinearSumRemove(linear: map<Var, int>, x: Sample, v: Var)
    requires v in linear
    ensures LinearSum(linear, x) == linear[v] * X(x, v) + LinearSum(linear - {v}, x)
    decreases |linear|
  {
    var v0 :| v0 in linear && LinearSum(linear, x) == linear[v0] * X(x, v0) + LinearSum(linear - {v0}, x);
    if v0 != v {
      LinearSumRemove(linear - {v0}, x, v);
      LinearSumRemove(linear - {v}, x, v0);
      assert linear - {v0} - {v} == linear - {v} - {v0};
    }
  }

  /** Setting the bias of v to a changes the linear sum by the change at v. */
  lemma LinearSumUpdate(linear: map<Var, int>, x: Sample, v: Var, a: int)
    ensures LinearSum(linear[v := a], x)
         == LinearSum(linear, x) + a * X(x, v) - (if v in linear then linear[v] * X(x, v) else 0)
  {
    LinearSumRemove(linear[v := a], x, v);
    assert linear[v := a] - {v} == linear - {v};
    if v in linear {
      LinearSumRemove(linear, x, v);
    } else {
      assert linear - {v} == linear;
    }
  }

  /** Whichever pair is taken out first, the quadratic sum is the same. */
  lemma {:induction false} QuadraticSumRemove(quadratic: map<Edge, int>, x: Sample, e: Edge)
    requires e in quadratic
    ensures QuadraticSum(quadratic, x) == quadratic[e] * (X(x, e.lo) * X(x, e.hi)) + QuadraticSum(quadratic - {e}, x)
    decreases |quadratic|
  {
    var e0 :| e0 in quadratic
      && QuadraticSum(quadratic, x) == quadratic[e0] * (X(x, e0.lo) * X(x, e0.hi)) + QuadraticSum(quadratic - {e0}, x);
    if e0 != e {
      QuadraticSumRemove(quadratic - {e0}, x, e);
      QuadraticSumRemove(quadratic - {e}, x, e0);
      assert quadratic - {e0} - {e} == quadratic - {e} - {e0};
    }
  }

  /** Setting the bias of e to a changes the quadratic sum by the change at e. */
  lemma QuadraticSumUpdate(quadratic: map<Edge, int>, x: Sample, e: Edge, a: int)
    ensures QuadraticSum(quadratic[e := a], x)
         == QuadraticSum(quadratic, x) + a * (X(x, e.lo) * X(x, e.hi))
            - (if e in quadratic then quadratic[e] * (X(x, e.lo) * X(x, e.hi)) else 0)
  {
    QuadraticSumRemove(quadratic[e := a], x, e);
    assert quadratic[e := a] - {e} == quadratic - {e};
    if e in quadratic {
      QuadraticSumRemove(quadratic, x, e);
    } else {
      assert quadratic - {e} == quadratic;
    }
  }

  /** add_variable / add_linear: add b onto v's linear bias, creating v if new. */
  function LinearAdded(m: Model, v: Var, b: int): Model
  {
    m.(linear := m.linear[v := LinearBias(m, v) + b])
  }

  /** add_quadratic: make sure u and v exist, then add b onto the bias of {u, v}.
      A variable cannot interact with itself. */
  function QuadraticAdded(m: Model, u: Var, v: Var, b: int): Model
    requires u != v
  {
    var m1 := LinearAdded(LinearAdded(m, u, 0), v, 0);
    m1.(quadratic := m1.quadratic[Key(u, v) := QuadraticBias(m1, Key(u, v)) + b])
  }

  /** Adding b to v's linear bias raises every sample's energy by b * x[v]. */
  lemma EnergyLinearAdded(m: Model, v: Var, b: int, x: Sample)
    ensures Energy(LinearAdded(m, v, b), x) == Energy(m, x) + b * X(x, v)
  {
    var a := LinearBias(m, v);
    LinearSumUpdate(m.linear, x, v, a + b);
    BiasChange(a, b, X(x, v));
  }

  /** (a + b) * y - a * y == b * y */
  lemma BiasChange(a: int, b: int, y: int)
    ensures (a + b) * y - a * y == b * y
  {
  }

  /** b * (p * q) == b * (q * p) */
  lemma Product(b: int, p: int, q: int)
    ensures b * (p * q) == b * (q * p)
  {
    assert q * p == p * q;
  }

  /** Adding b to the bias of {u, v} raises every sample's energy by b * x[u] * x[v]. */
  lemma EnergyQuadraticAdded(m: Model, u: Var, v: Var, b: int, x: Sample)
    requires u != v
    ensures Energy(QuadraticAdded(m, u, v, b), x) == Energy(m, x) + b * (X(x, u) * X(x, v))
  {
    var m1 := LinearAdded(LinearAdded(m, u, 0), v, 0);
    EnergyLinearAdded(m, u, 0, x);
    EnergyLinearAdded(LinearAdded(m, u, 0), v, 0, x);
    var e := Key(u, v);
    var a := QuadraticBias(m1, e);
    QuadraticSumUpdate(m1.quadratic, x, e, a + b);
    BiasChange(a, b, X(x, e.lo) * X(x, e.hi));
    Product(b, X(x, u), X(x, v));
  }

  /** Adding onto one pair changes that pair's bias and no other. */
  lemma QuadraticBiasAdded(m: Model, u: Var, v: Var, b: int, e: Edge)
    requires u != v
    ensures QuadraticBias(QuadraticAdded(m, u, v, b), e) == QuadraticBias(m, e) + (if e == Key(u, v) then b else 0)
  {
  }

  /** add_quadratic creates both variables, with linear bias 0 if they are new,
      and leaves every linear bias and the offset as they were. */
  lemma QuadraticAddedLinear(m: Model, u: Var, v: Var, b: int, w: Var)
    requires u != v
    ensures LinearBias(QuadraticAdded(m, u, v, b), w) == LinearBias(m, w)
    ensures QuadraticAdded(m, u, v, b).linear.Keys == m.linear.Keys + {u, v}
    ensures QuadraticAdded(m, u, v, b).offset == m.offset
  {
  }

  /** One accumulate operation on a model. */
  datatype Op = AddOffset(b: int) | AddLinear(v: Var, b: int) | AddQuad(u: Var, v: Var, b: int)

  /** add_quadratic refuses to pair a variable with itself. */
  predicate NoSelfPair(op: Op)
  {
    op.AddQuad? ==> op.u != op.v
  }

  predicate NoSelfPairs(ops: seq<Op>)
  {
    forall i :: 0 <= i < |ops| ==> NoSelfPair(ops[i])
  }

  /** One operation on a model. add_quadratic raises an error on a self-pair
      and changes nothing; so does the operation here. */
  function ApplyOp(m: Model, op: Op): Model
  {
    match op
    case AddOffset(b) => m.(offset := m.offset + b)
    case AddLinear(v, b) => LinearAdded(m, v, b)
    case AddQuad(u, v, b) => if u == v then m else QuadraticAdded(m, u, v, b)
  }

  /** The operations applied one after the other, first to last. */
  function Apply(m: Model, ops: seq<Op>): Model
  {
    if ops == [] then m else ApplyOp(Apply(m, ops[..|ops| - 1]), ops[|ops| - 1])
  }

  /** Applying a + b is applying a, then b. */
  lemma {:induction false} ApplyConcat(m: Model, a: seq<Op>, b: seq<Op>)
    ensures Apply(m, a + b) == Apply(Apply(m, a), b)
  {
    if b == [] {
      assert a + b == a;
    } else {
      ApplyConcat(m, a, b[..|b| - 1]);
      assert (a + b)[..|a + b| - 1] == a + b[..|b| - 1];
    }
  }

  lemma ApplySnoc(m: Model, ops: seq<Op>, op: Op)
    ensures Apply(m, ops + [op]) == ApplyOp(Apply(m, ops), op)
  {
    assert (ops + [op])[..|ops|] == ops;
  }

  /** What one operation adds to the energy of x. */
  function OpEnergy(op: Op, x: Sample): int
  {
    match op
    case AddOffset(b) => b
    case AddLinear(v, b) => b * X(x, v)
    case AddQuad(u, v, b) => if u == v then 0 else b * (X(x, u) * X(x, v))
  }

  function OpsEnergy(ops: seq<Op>, x: Sample): int
  {
    if ops == [] then 0 else OpsEnergy(ops[..|ops| - 1], x) + OpEnergy(ops[|ops| - 1], x)
  }

  /** What one operation adds to the linear bias of w. */
  function OpLinear(op: Op, w: Var): int
  {
    if op.AddLinear? && op.v == w then op.b else 0
  }

  function LinearOn(ops: seq<Op>, w: Var): int
  {
    if ops == [] then 0 else LinearOn(ops[..|ops| - 1], w) + OpLinear(ops[|ops| - 1], w)
  }

  /** What one operation adds to the quadratic bias of e. */
  function OpQuad(op: Op, e: Edge): int
  {
    if op.AddQuad? && op.u != op.v && Key(op.u, op.v) == e then op.b else 0
  }

  function QuadOn(ops: seq<Op>, e: Edge): int
  {
    if ops == [] then 0 else QuadOn(ops[..|ops| - 1], e) + OpQuad(ops[|ops| - 1], e)
  }

  /** The variables the operations create. */
  function OpVars(ops: seq<Op>): set<Var>
  {
    if ops == [] then {}
    else
      var op := ops[|ops| - 1];
      OpVars(ops[..|ops| - 1]) + (match op case AddOffset(_) => {} case AddLinear(v, _) => {v} case AddQuad(u, v, _) => if u == v then {} else {u, v})
  }

  /** The energy of a + b is the energy of a plus the energy of b. */
  lemma {:induction false} EnergyConcat(a: seq<Op>, b: seq<Op>, x: Sample)
    ensures OpsEnergy(a + b, x) == OpsEnergy(a, x) + OpsEnergy(b, x)
  {
    if b == [] {
      assert a + b == a;
    } else {
      EnergyConcat(a, b[..|b| - 1], x);
      assert (a + b)[..|a + b| - 1] == a + b[..|b| - 1];
    }
  }

  lemma EnergySingle(op: Op, x: Sample)
    ensures OpsEnergy([op], x) == OpEnergy(op, x)
  {
    assert [op][..0] == [];
  }

  lemma LinearSingle(op: Op, w: Var)
    ensures LinearOn([op], w) == OpLinear(op, w)
  {
    assert [op][..0] == [];
  }

  lemma QuadSingle(op: Op, e: Edge)
    ensures QuadOn([op], e) == OpQuad(op, e)
  {
    assert [op][..0] == [];
  }

  lemma VarsSingle(op: Op)
    ensures OpVars([op]) == match op case AddOffset(_) => {} case AddLinear(v, _) => {v} case AddQuad(u, v, _) => if u == v then {} else {u, v}
  {
    assert [op][..0] == [];
  }

  /** The linear total over a + b is the total over a plus the total over b. */
  lemma {:induction false} LinearConcat(a: seq<Op>, b: seq<Op>, w: Var)
    ensures LinearOn(a + b, w) == LinearOn(a, w) + LinearOn(b, w)
  {
    if b == [] {
      assert a + b == a;
    } else {
      LinearConcat(a, b[..|b| - 1], w);
      assert (a + b)[..|a + b| - 1] == a + b[..|b| - 1];
    }
  }

  /** The quadratic total over a + b is the total over a plus the total over b. */
  lemma {:induction false} QuadConcat(a: seq<Op>, b: seq<Op>, e: Edge)
    ensures QuadOn(a + b, e) == QuadOn(a, e) + QuadOn(b, e)
  {
    if b == [] {
      assert a + b == a;
    } else {
      QuadConcat(a, b[..|b| - 1], e);
      assert (a + b)[..|a + b| - 1] == a + b[..|b| - 1];
    }
  }

  /** The variables a + b creates are those a creates and those b creates. */
  lemma {:induction false} VarsConcat(a: seq<Op>, b: seq<Op>)
    ensures OpVars(a + b) == OpVars(a) + OpVars(b)
  {
    if b == [] {
      assert a + b == a;
    } else {
      VarsConcat(a, b[..|b| - 1]);
      assert (a + b)[..|a + b| - 1] == a + b[..|b| - 1];
    }
  }

  /** Applying operations raises the energy of every sample by their energies. */
  lemma {:induction false} EnergyApply(m: Model, ops: seq<Op>, x: Sample)
    ensures Energy(Apply(m, ops), x) == Energy(m, x) + OpsEnergy(ops, x)
  {
    if ops != [] {
      var prev := Apply(m, ops[..|ops| - 1]);
      EnergyApply(m, ops[..|ops| - 1], x);
      match ops[|ops| - 1]
      case AddOffset(b) =>
      case AddLinear(v, b) => EnergyLinearAdded(prev, v, b, x);
      case AddQuad(u, v, b) =>
        if u != v {
          EnergyQuadraticAdded(prev, u, v, b, x);
        }
    }
  }

  /** Applying operations adds their totals to the biases and creates their
      variables. */
  lemma {:induction false} BiasesApply(m: Model, ops: seq<Op>, w: Var, e: Edge)
    ensures LinearBias(Apply(m, ops), w) == LinearBias(m, w) + LinearOn(ops, w)
    ensures QuadraticBias(Apply(m, ops), e) == QuadraticBias(m, e) + QuadOn(ops, e)
    ensures Apply(m, ops).linear.Keys == m.linear.Keys + OpVars(ops)
  {
    if ops != [] {
      var prev := Apply(m, ops[..|ops| - 1]);
      BiasesApply(m, ops[..|ops| - 1], w, e);
      match ops[|ops| - 1]
      case AddOffset(b) =>
      case AddLinear(v, b) =>
      case AddQuad(u, v, b) =>
        if u != v {
          QuadraticBiasAdded(prev, u, v, b, e);
          QuadraticAddedLinear(prev, u, v, b, w);
        }
    }
  }

  /** A term b * x[v] of a linear equality constraint. */
  type Term = (Var, int)

  predicate DistinctVars(terms: seq<Term>)
  {
    forall a, b :: 0 <= a < b < |terms| ==> terms[a].0 != terms[b].0
  }

  /** The variables a list of terms mentions. */
  predicate Mentions(terms: seq<Term>, v: Var)
  {
    exists a :: 0 <= a < |terms| && terms[a].0 == v
  }

  /** The variables of the first k terms. */
  function TermVars(terms: seq<Term>, k: nat): set<Var>
    requires k <= |terms|
  {
    if k == 0 then {} else TermVars(terms, k - 1) + {terms[k - 1].0}
  }

  lemma {:induction false} TermVarsMentions(terms: seq<Term>, k: nat, v: Var)
    requires k <= |terms|
    ensures v in TermVars(terms, k) <==> exists a :: 0 <= a < k && terms[a].0 == v
  {
    if k > 0 {
      TermVarsMentions(terms, k - 1, v);
    }
  }

  /** b_0 * x[v_0] + ... + b_(k-1) * x[v_(k-1)] */
  function Dot(terms: seq<Term>, x: Sample, k: nat): int
    requires k <= |terms|
  {
    if k == 0 then 0 else Dot(terms, x, k - 1) + terms[k - 1].1 * X(x, terms[k - 1].0)
  }

  /** The linear bias a constraint lam * (... + b * x + ... + c)^2 puts on a
      0/1 variable of coefficient b: lam * (2 * c * b + b * b), using x * x == x. */
  function SelfBias(b: int, c: int, lam: int): int
  {
    lam * (2 * c * b + b * b)
  }

  /** The quadratic bias such a constraint puts on two of its variables, of
      coefficients b and b': 2 * lam * b * b'. */
  function PairBias(b: int, b': int, lam: int): int
  {
    2 * lam * b * b'
  }

  /** The cross terms between term k and the terms before index a. */
  function PairOps(terms: seq<Term>, k: nat, a: nat, lam: int): (ops: seq<Op>)
    requires DistinctVars(terms) && a <= k < |terms|
    ensures NoSelfPairs(ops)
  {
    if a == 0 then []
    else PairOps(terms, k, a - 1, lam) + [AddQuad(terms[a - 1].0, terms[k].0, PairBias(terms[a - 1].1, terms[k].1, lam))]
  }

  /** Term k: its linear part, then its cross terms with every earlier term. */
  function TermOps(terms: seq<Term>, k: nat, c: int, lam: int): (ops: seq<Op>)
    requires DistinctVars(terms) && k < |terms|
    ensures NoSelfPairs(ops)
  {
    [AddLinear(terms[k].0, SelfBias(terms[k].1, c, lam))] + PairOps(terms, k, k, lam)
  }

  function TermsOps(terms: seq<Term>, k: nat, c: int, lam: int): (ops: seq<Op>)
    requires DistinctVars(terms) && k <= |terms|
    ensures NoSelfPairs(ops)
  {
    if k == 0 then [] else TermsOps(terms, k - 1, c, lam) + TermOps(terms, k - 1, c, lam)
  }

  /** What add_linear_equality_constraint(terms, constant = c,
      lagrange_multiplier = lam) does: add lam * (sum of terms + c)^2,
      expanded over 0/1 variables. */
  function ConstraintOps(terms: seq<Term>, c: int, lam: int): (ops: seq<Op>)
    requires DistinctVars(terms)
    ensures NoSelfPairs(ops)
  {
    [AddOffset(lam * c * c)] + TermsOps(terms, |terms|, c, lam)
  }

  function ConstraintAdded(m: Model, terms: seq<Term>, c: int, lam: int): Model
    requires DistinctVars(terms)
  {
    Apply(m, ConstraintOps(terms, c, lam))
  }

  /** What the cross terms between term k and the terms before index a add to
      the energy of x. */
  function CrossEnergy(terms: seq<Term>, x: Sample, k: nat, a: nat, lam: int): int
    requires a <= k < |terms|
  {
    if a == 0 then 0
    else CrossEnergy(terms, x, k, a - 1, lam)
         + PairBias(terms[a - 1].1, terms[k].1, lam) * (X(x, terms[a - 1].0) * X(x, terms[k].0))
  }

  /** What the first k terms of a constraint add to the energy of x, offset aside. */
  function ConstraintEnergy(terms: seq<Term>, x: Sample, k: nat, c: int, lam: int): int
    requires k <= |terms|
  {
    if k == 0 then 0
    else ConstraintEnergy(terms, x, k - 1, c, lam)
         + SelfBias(terms[k - 1].1, c, lam) * X(x, terms[k - 1].0)
         + CrossEnergy(terms, x, k - 1, k - 1, lam)
  }

  lemma {:induction false} PairOpsEnergy(terms: seq<Term>, x: Sample, k: nat, a: nat, lam: int)
    requires DistinctVars(terms) && a <= k < |terms|
    ensures OpsEnergy(PairOps(terms, k, a, lam), x) == CrossEnergy(terms, x, k, a, lam)
  {
    if a > 0 {
      PairOpsEnergy(terms, x, k, a - 1, lam);
      var prev := PairOps(terms, k, a - 1, lam);
      var op := AddQuad(terms[a - 1].0, terms[k].0, PairBias(terms[a - 1].1, terms[k].1, lam));
      assert (prev + [op])[..|prev|] == prev;
    }
  }

  lemma {:induction false} TermsOpsEnergy(terms: seq<Term>, x: Sample, k: nat, c: int, lam: int)
    requires DistinctVars(terms) && k <= |terms|
    ensures OpsEnergy(TermsOps(terms, k, c, lam), x) == ConstraintEnergy(terms, x, k, c, lam)
  {
    if k > 0 {
      TermsOpsEnergy(terms, x, k - 1, c, lam);
      var (v, b) := terms[k - 1];
      var first := [AddLinear(v, SelfBias(b, c, lam))];
      var pairs := PairOps(terms, k - 1, k - 1, lam);
      EnergyConcat(TermsOps(terms, k - 1, c, lam), first + pairs, x);
      EnergyConcat(first, pairs, x);
      EnergySingle(AddLinear(v, SelfBias(b, c, lam)), x);
      PairOpsEnergy(terms, x, k - 1, k - 1, lam);
    }
  }

  /** The cross terms of term k sum to 2 * lam * (b_k * x[v_k]) * (b_0 * x[v_0] + ... + b_(a-1) * x[v_(a-1)]). */
  lemma {:induction false} CrossEnergyIsProduct(terms: seq<Term>, x: Sample, k: nat, a: nat, lam: int)
    requires a <= k < |terms|
    ensures CrossEnergy(terms, x, k, a, lam) == 2 * lam * (terms[k].1 * X(x, terms[k].0)) * Dot(terms, x, a)
  {
    if a > 0 {
      CrossEnergyIsProduct(terms, x, k, a - 1, lam);
      CrossTerm(lam, terms[a - 1].1, terms[k].1, X(x, terms[a - 1].0), X(x, terms[k].0),
                Dot(terms, x, a - 1), Dot(terms, x, a));
    } else {
      ZeroProduct(2 * lam * (terms[k].1 * X(x, terms[k].0)), Dot(terms, x, 0));
    }
  }

  lemma ZeroProduct(p: int, d: int)
    requires d == 0
    ensures p * d == 0
  {
  }

  /** The algebra of one cross term: with d' == d + bu * xu,
      2 * lam * (bv * xv) * d + 2 * lam * bu * bv * (xu * xv) == 2 * lam * (bv * xv) * d'. */
  lemma CrossTerm(lam: int, bu: int, bv: int, xu: int, xv: int, d: int, d': int)
    requires d' == d + bu * xu
    ensures 2 * lam * (bv * xv) * d + PairBias(bu, bv, lam) * (xu * xv) == 2 * lam * (bv * xv) * d'
  {
    var t := bv * xv;
    assert PairBias(bu, bv, lam) * (xu * xv) == 2 * lam * t * (bu * xu);
    assert 2 * lam * t * d' == 2 * lam * t * d + 2 * lam * t * (bu * xu);
  }

  /** For a 0/1 sample, the first k terms and the offset lam * c^2 together are
      lam * (b_0 * x[v_0] + ... + b_(k-1) * x[v_(k-1)] + c)^2. */
  lemma {:induction false} ConstraintEnergyIsSquare(terms: seq<Term>, x: Sample, k: nat, c: int, lam: int)
    requires k <= |terms| && Binary(x)
    ensures ConstraintEnergy(terms, x, k, c, lam) + lam * c * c
         == lam * (Dot(terms, x, k) + c) * (Dot(terms, x, k) + c)
  {
    if k > 0 {
      ConstraintEnergyIsSquare(terms, x, k - 1, c, lam);
      CrossEnergyIsProduct(terms, x, k - 1, k - 1, lam);
      var y := X(x, terms[k - 1].0);
      assert y == 0 || y == 1;
      NextTerm(lam, c, terms[k - 1].1, y, Dot(terms, x, k - 1), Dot(terms, x, k));
    } else {
      SquareAtZero(lam, c, Dot(terms, x, 0));
    }
  }

  lemma SquareAtZero(lam: int, c: int, d: int)
    requires d == 0
    ensures lam * (d + c) * (d + c) == lam * c * c
  {
  }

  /** For a 0/1 value y, the linear part of term (b, y) is 2 * c * (b * y) + (b * y)^2. */
  lemma BinaryLinearPart(b: int, c: int, y: int)
    requires y == 0 || y == 1
    ensures (2 * c * b + b * b) * y == 2 * c * (b * y) + (b * y) * (b * y)
  {
    if y == 0 {
      assert b * y == 0;
    } else {
      assert b * y == b;
    }
  }

  /** The algebra of one step: lam * (d + c)^2 plus term (b, y)'s linear and
      cross parts is lam * (d' + c)^2 where d' == d + b * y, for a 0/1 value y. */
  lemma NextTerm(lam: int, c: int, b: int, y: int, d: int, d': int)
    requires y == 0 || y == 1
    requires d' == d + b * y
    ensures lam * (d + c) * (d + c) + SelfBias(b, c, lam) * y + 2 * lam * (b * y) * d
         == lam * (d' + c) * (d' + c)
  {
    var t := b * y;
    var e := 2 * c * t + t * t;
    BinaryLinearPart(b, c, y);
    ScaleThen(lam, 2 * c * b + b * b, y);
    ScaleThen(lam, d + c, d + c);
    ScaleThen(lam, d' + c, d' + c);
    ScaleCross(lam, t, d);
    SquareShift(d, t, c);
    ScaleSum(lam, (d + c) * (d + c), e, 2 * t * d);
  }

  /** (lam * u) * v == lam * (u * v). */
  lemma ScaleThen(lam: int, u: int, v: int)
    ensures lam * u * v == lam * (u * v)
  {
  }

  lemma ScaleCross(lam: int, t: int, d: int)
    ensures 2 * lam * t * d == lam * (2 * t * d)
  {
  }

  /** (d + t + c)^2 expanded around (d + c)^2. */
  lemma SquareShift(d: int, t: int, c: int)
    ensures (d + t + c) * (d + t + c) == (d + c) * (d + c) + (2 * c * t + t * t) + 2 * t * d
  {
  }

  /** lam distributes over a sum of three. */
  lemma ScaleSum(lam: int, u: int, v: int, w: int)
    ensures lam * u + lam * v + lam * w == lam * (u + v + w)
  {
  }

  /** An offset followed by other operations: the offset plus their energy. */
  lemma OffsetThen(ops: seq<Op>, rest: seq<Op>, b: int, x: Sample)
    requires ops == [AddOffset(b)] + rest
    ensures OpsEnergy(ops, x) == b + OpsEnergy(rest, x)
  {
    EnergyConcat([AddOffset(b)], rest, x);
    EnergySingle(AddOffset(b), x);
  }

  /** For a 0/1 sample the operations of a constraint add
      lam * (b_0 * x[v_0] + ... + c)^2 to the energy: nothing when it holds. */
  lemma ConstraintOpsEnergy(terms: seq<Term>, x: Sample, c: int, lam: int)
    requires DistinctVars(terms) && Binary(x)
    ensures OpsEnergy(ConstraintOps(terms, c, lam), x)
         == lam * (Dot(terms, x, |terms|) + c) * (Dot(terms, x, |terms|) + c)
  {
    OffsetThen(ConstraintOps(terms, c, lam), TermsOps(terms, |terms|, c, lam), lam * c * c, x);
    TermsOpsSquare(terms, x, c, lam);
  }

  /** The terms' operations and the offset lam * c^2 together add lam * (b_0 * x[v_0] + ... + c)^2. */
  lemma TermsOpsSquare(terms: seq<Term>, x: Sample, c: int, lam: int)
    requires DistinctVars(terms) && Binary(x)
    ensures OpsEnergy(TermsOps(terms, |terms|, c, lam), x) + lam * c * c
         == lam * (Dot(terms, x, |terms|) + c) * (Dot(terms, x, |terms|) + c)
  {
    TermsOpsEnergy(terms, x, |terms|, c, lam);
    ConstraintEnergyIsSquare(terms, x, |terms|, c, lam);
  }

  /** add_linear_equality_constraint raises the energy of every 0/1 sample by
      lam * (b_0 * x[v_0] + ... + c)^2. */
  lemma EnergyConstraintAdded(m: Model, terms: seq<Term>, c: int, lam: int, x: Sample)
    requires DistinctVars(terms) && Binary(x)
    ensures Energy(ConstraintAdded(m, terms, c, lam), x)
         == Energy(m, x) + lam * (Dot(terms, x, |terms|) + c) * (Dot(terms, x, |terms|) + c)
  {
    EnergyApply(m, ConstraintOps(terms, c, lam), x);
    ConstraintOpsEnergy(terms, x, c, lam);
  }

  /** The linear bias the first k terms put on v: the sum of SelfBias over the
      terms whose variable is v. */
  function SelfBiasFor(terms: seq<Term>, k: nat, v: Var, c: int, lam: int): int
    requires k <= |terms|
  {
    if k == 0 then 0
    else SelfBiasFor(terms, k - 1, v, c, lam) + (if terms[k - 1].0 == v then SelfBias(terms[k - 1].1, c, lam) else 0)
  }

  /** With distinct variables, a variable of the terms gets its own term's
      SelfBias and any other variable gets nothing. */
  lemma {:induction false} SelfBiasForValue(terms: seq<Term>, k: nat, v: Var, c: int, lam: int)
    requires DistinctVars(terms) && k <= |terms|
    ensures (forall a :: 0 <= a < k ==> terms[a].0 != v) ==> SelfBiasFor(terms, k, v, c, lam) == 0
    ensures forall a :: 0 <= a < k && terms[a].0 == v ==> SelfBiasFor(terms, k, v, c, lam) == SelfBias(terms[a].1, c, lam)
  {
    if k > 0 {
      SelfBiasForValue(terms, k - 1, v, c, lam);
    }
  }

  lemma {:induction false} PairOpsLinear(terms: seq<Term>, k: nat, a: nat, lam: int, w: Var)
    requires DistinctVars(terms) && a <= k < |terms|
    ensures LinearOn(PairOps(terms, k, a, lam), w) == 0
    ensures OpVars(PairOps(terms, k, a, lam)) == TermVars(terms, a) + (if a == 0 then {} else {terms[k].0})
  {
    if a > 0 {
      PairOpsLinear(terms, k, a - 1, lam, w);
      var op := AddQuad(terms[a - 1].0, terms[k].0, PairBias(terms[a - 1].1, terms[k].1, lam));
      LinearConcat(PairOps(terms, k, a - 1, lam), [op], w);
      LinearSingle(op, w);
      VarsConcat(PairOps(terms, k, a - 1, lam), [op]);
      VarsSingle(op);
    }
  }

  lemma {:induction false} PairOpsElsewhere(terms: seq<Term>, k: nat, a: nat, lam: int, e: Edge)
    requires DistinctVars(terms) && a <= k < |terms|
    requires !(Mentions(terms, e.lo) && Mentions(terms, e.hi))
    ensures QuadOn(PairOps(terms, k, a, lam), e) == 0
  {
    if a > 0 {
      PairOpsElsewhere(terms, k, a - 1, lam, e);
      var u, v := terms[a - 1].0, terms[k].0;
      var op := AddQuad(u, v, PairBias(terms[a - 1].1, terms[k].1, lam));
      QuadConcat(PairOps(terms, k, a - 1, lam), [op], e);
      QuadSingle(op, e);
      assert Mentions(terms, u) && Mentions(terms, v);
    }
  }

  /** Within a constraint the pair of terms s < t is visited once, when term t
      is added. */
  lemma {:induction false} PairOpsQuad(terms: seq<Term>, k: nat, a: nat, lam: int, s: nat, t: nat)
    requires DistinctVars(terms) && a <= k < |terms| && s < t < |terms|
    ensures QuadOn(PairOps(terms, k, a, lam), Key(terms[s].0, terms[t].0))
         == if k == t && s < a then PairBias(terms[s].1, terms[t].1, lam) else 0
  {
    if a > 0 {
      PairOpsQuad(terms, k, a - 1, lam, s, t);
      var u, v := terms[a - 1].0, terms[k].0;
      var e := Key(terms[s].0, terms[t].0);
      var op := AddQuad(u, v, PairBias(terms[a - 1].1, terms[k].1, lam));
      QuadConcat(PairOps(terms, k, a - 1, lam), [op], e);
      QuadSingle(op, e);
      KeyUnordered(u, v, terms[s].0, terms[t].0);
    }
  }

  lemma TermOpsLinear(terms: seq<Term>, k: nat, c: int, lam: int, w: Var)
    requires DistinctVars(terms) && k < |terms|
    ensures LinearOn(TermOps(terms, k, c, lam), w) == if terms[k].0 == w then SelfBias(terms[k].1, c, lam) else 0
    ensures OpVars(TermOps(terms, k, c, lam)) == TermVars(terms, k) + {terms[k].0}
  {
    var first := AddLinear(terms[k].0, SelfBias(terms[k].1, c, lam));
    var pairs := PairOps(terms, k, k, lam);
    LinearConcat([first], pairs, w);
    LinearSingle(first, w);
    VarsConcat([first], pairs);
    VarsSingle(first);
    PairOpsLinear(terms, k, k, lam, w);
  }

  lemma TermOpsElsewhere(terms: seq<Term>, k: nat, c: int, lam: int, e: Edge)
    requires DistinctVars(terms) && k < |terms|
    requires !(Mentions(terms, e.lo) && Mentions(terms, e.hi))
    ensures QuadOn(TermOps(terms, k, c, lam), e) == 0
  {
    var first := AddLinear(terms[k].0, SelfBias(terms[k].1, c, lam));
    QuadConcat([first], PairOps(terms, k, k, lam), e);
    QuadSingle(first, e);
    PairOpsElsewhere(terms, k, k, lam, e);
  }

  lemma TermOpsQuad(terms: seq<Term>, k: nat, c: int, lam: int, s: nat, t: nat)
    requires DistinctVars(terms) && k < |terms| && s < t < |terms|
    ensures QuadOn(TermOps(terms, k, c, lam), Key(terms[s].0, terms[t].0))
         == if k == t then PairBias(terms[s].1, terms[t].1, lam) else 0
  {
    var first := AddLinear(terms[k].0, SelfBias(terms[k].1, c, lam));
    var e := Key(terms[s].0, terms[t].0);
    QuadConcat([first], PairOps(terms, k, k, lam), e);
    QuadSingle(first, e);
    PairOpsQuad(terms, k, k, lam, s, t);
  }

  lemma {:induction false} TermsOpsLinear(terms: seq<Term>, k: nat, c: int, lam: int, w: Var)
    requires DistinctVars(terms) && k <= |terms|
    ensures LinearOn(TermsOps(terms, k, c, lam), w) == SelfBiasFor(terms, k, w, c, lam)
    ensures OpVars(TermsOps(terms, k, c, lam)) == TermVars(terms, k)
  {
    if k > 0 {
      TermsOpsLinear(terms, k - 1, c, lam, w);
      LinearConcat(TermsOps(terms, k - 1, c, lam), TermOps(terms, k - 1, c, lam), w);
      VarsConcat(TermsOps(terms, k - 1, c, lam), TermOps(terms, k - 1, c, lam));
      TermOpsLinear(terms, k - 1, c, lam, w);
    }
  }

  lemma {:induction false} TermsOpsElsewhere(terms: seq<Term>, k: nat, c: int, lam: int, e: Edge)
    requires DistinctVars(terms) && k <= |terms|
    requires !(Mentions(terms, e.lo) && Mentions(terms, e.hi))
    ensures QuadOn(TermsOps(terms, k, c, lam), e) == 0
  {
    if k > 0 {
      TermsOpsElsewhere(terms, k - 1, c, lam, e);
      QuadConcat(TermsOps(terms, k - 1, c, lam), TermOps(terms, k - 1, c, lam), e);
      TermOpsElsewhere(terms, k - 1, c, lam, e);
    }
  }

  lemma {:induction false} TermsOpsQuad(terms: seq<Term>, k: nat, c: int, lam: int, s: nat, t: nat)
    requires DistinctVars(terms) && k <= |terms| && s < t < |terms|
    ensures QuadOn(TermsOps(terms, k, c, lam), Key(terms[s].0, terms[t].0))
         == if t < k then PairBias(terms[s].1, terms[t].1, lam) else 0
  {
    if k > 0 {
      TermsOpsQuad(terms, k - 1, c, lam, s, t);
      QuadConcat(TermsOps(terms, k - 1, c, lam), TermOps(terms, k - 1, c, lam), Key(terms[s].0, terms[t].0));
      TermOpsQuad(terms, k - 1, c, lam, s, t);
    }
  }

  /** add_linear_equality_constraint creates the variables of its terms, adds
      each term's SelfBias to that term's variable and nothing to any other
      variable. */
  lemma ConstraintLinear(terms: seq<Term>, c: int, lam: int, w: Var)
    requires DistinctVars(terms)
    ensures OpVars(ConstraintOps(terms, c, lam)) == TermVars(terms, |terms|)
    ensures !Mentions(terms, w) ==> LinearOn(ConstraintOps(terms, c, lam), w) == 0
    ensures forall a :: 0 <= a < |terms| && terms[a].0 == w
              ==> LinearOn(ConstraintOps(terms, c, lam), w) == SelfBias(terms[a].1, c, lam)
  {
    var first := AddOffset(lam * c * c);
    LinearConcat([first], TermsOps(terms, |terms|, c, lam), w);
    LinearSingle(first, w);
    VarsConcat([first], TermsOps(terms, |terms|, c, lam));
    VarsSingle(first);
    TermsOpsLinear(terms, |terms|, c, lam, w);
    SelfBiasForValue(terms, |terms|, w, c, lam);
  }

  /** A constraint adds onto no pair that is not made of two of its variables. */
  lemma ConstraintElsewhere(terms: seq<Term>, c: int, lam: int, e: Edge)
    requires DistinctVars(terms)
    requires !(Mentions(terms, e.lo) && Mentions(terms, e.hi))
    ensures QuadOn(ConstraintOps(terms, c, lam), e) == 0
  {
    var first := AddOffset(lam * c * c);
    QuadConcat([first], TermsOps(terms, |terms|, c, lam), e);
    QuadSingle(first, e);
    TermsOpsElsewhere(terms, |terms|, c, lam, e);
  }

  /** The pair of terms s < t of a constraint gets quadratic bias 2 * lam * b_s * b_t. */
  lemma ConstraintPairBias(terms: seq<Term>, c: int, lam: int, s: nat, t: nat)
    requires DistinctVars(terms) && s < t < |terms|
    ensures QuadOn(ConstraintOps(terms, c, lam), Key(terms[s].0, terms[t].0)) == PairBias(terms[s].1, terms[t].1, lam)
  {
    var first := AddOffset(lam * c * c);
    var e := Key(terms[s].0, terms[t].0);
    QuadConcat([first], TermsOps(terms, |terms|, c, lam), e);
    QuadSingle(first, e);
    TermsOpsQuad(terms, |terms|, c, lam, s, t);
  }

  /** The operations of k iterations of a loop whose iteration t performs body(t). */
  function Iterations(k: nat, body: int -> seq<Op>): seq<Op>
  {
    if k == 0 then [] else Iterations(k - 1, body) + body(k - 1)
  }

  /** A loop adds the energies of its iterations. */
  lemma {:induction false} IterationsEnergy(k: nat, body: int -> seq<Op>, x: Sample)
    ensures OpsEnergy(Iterations(k, body), x) == SumRange(k, t => OpsEnergy(body(t), x))
  {
    if k > 0 {
      IterationsEnergy(k - 1, body, x);
      EnergyConcat(Iterations(k - 1, body), body(k - 1), x);
    }
  }

  /** A loop adds the linear biases of its iterations. */
  lemma {:induction false} IterationsLinear(k: nat, body: int -> seq<Op>, w: Var)
    ensures LinearOn(Iterations(k, body), w) == SumRange(k, t => LinearOn(body(t), w))
  {
    if k > 0 {
      IterationsLinear(k - 1, body, w);
      LinearConcat(Iterations(k - 1, body), body(k - 1), w);
    }
  }

  /** A loop adds the quadratic biases of its iterations. */
  lemma {:induction false} IterationsQuad(k: nat, body: int -> seq<Op>, e: Edge)
    ensures QuadOn(Iterations(k, body), e) == SumRange(k, t => QuadOn(body(t), e))
  {
    if k > 0 {
      IterationsQuad(k - 1, body, e);
      QuadConcat(Iterations(k - 1, body), body(k - 1), e);
    }
  }

  /** A loop creates exactly the variables its iterations create. */
  lemma {:induction false} IterationsVars(k: nat, body: int -> seq<Op>, v: Var)
    ensures v in OpVars(Iterations(k, body)) <==> exists t :: 0 <= t < k && v in OpVars(body(t))
  {
    if k > 0 {
      IterationsVars(k - 1, body, v);
      VarsConcat(Iterations(k - 1, body), body(k - 1));
    }
  }

  /** A loop performs only operations its iterations perform. */
  lemma {:induction false} IterationsOps(k: nat, body: int -> seq<Op>, P: Op -> bool)
    requires forall t, m :: 0 <= t < k && 0 <= m < |body(t)| ==> P(body(t)[m])
    ensures forall m :: 0 <= m < |Iterations(k, body)| ==> P(Iterations(k, body)[m])
  {
    if k > 0 {
      IterationsOps(k - 1, body, P);
      var a, b := Iterations(k - 1, body), body(k - 1);
      assert forall m :: 0 <= m < |a + b| ==> (a + b)[m] == if m < |a| then a[m] else b[m - |a|];
    }
  }

  /** Operations none of which touches w's linear bias leave it at 0. */
  lemma {:induction false} LinearOnZero(ops: seq<Op>, w: Var)
    requires forall m :: 0 <= m < |ops| ==> OpLinear(ops[m], w) == 0
    ensures LinearOn(ops, w) == 0
  {
    if ops != [] {
      LinearOnZero(ops[..|ops| - 1], w);
    }
  }

  /** Operations none of which touches e's quadratic bias leave it at 0. */
  lemma {:induction false} QuadOnZero(ops: seq<Op>, e: Edge)
    requires forall m :: 0 <= m < |ops| ==> OpQuad(ops[m], e) == 0
    ensures QuadOn(ops, e) == 0
  {
    if ops != [] {
      QuadOnZero(ops[..|ops| - 1], e);
    }
  }

  /** The variables of operations whose variables all satisfy S satisfy S. */
  lemma {:induction false} VarsWithin(ops: seq<Op>, S: Var -> bool)
    requires forall m :: 0 <= m < |ops| && ops[m].AddLinear? ==> S(ops[m].v)
    requires forall m :: 0 <= m < |ops| && ops[m].AddQuad? ==> S(ops[m].u) && S(ops[m].v)
    ensures forall v :: v in OpVars(ops) ==> S(v)
  {
    if ops != [] {
      VarsWithin(ops[..|ops| - 1], S);
    }
  }

  /** s + t + u == s + (t + u), for extending a log by a block of operations. */
  lemma Assoc(s: seq<Op>, t: seq<Op>, u: seq<Op>)
    ensures s + t + u == s + (t + u)
  {
  }

  lemma EmptyPrefix(s: seq<Op>)
    ensures [] + s == s
  {
  }

  /** The operations up to term k of a constraint, followed by those of term k,
      are the operations up to term k + 1. */
  lemma TermsOpsNext(pre: seq<Op>, terms: seq<Term>, k: nat, c: int, lam: int)
    requires DistinctVars(terms) && k < |terms|
    ensures pre + TermsOps(terms, k, c, lam) + [AddLinear(terms[k].0, SelfBias(terms[k].1, c, lam))]
            + PairOps(terms, k, k, lam)
         == pre + TermsOps(terms, k + 1, c, lam)
  {
    var lin := AddLinear(terms[k].0, SelfBias(terms[k].1, c, lam));
    var pairs := PairOps(terms, k, k, lam);
    var b := TermsOps(terms, k, c, lam);
    assert pre + b + [lin] + pairs == pre + (b + ([lin] + pairs));
  }

  /** The mutable model the program builds: dimod's BinaryQuadraticModel with
      vartype BINARY, reduced to its biases and offset. The ghost log records
      the accumulate operations made so far, oldest first; Valid() says the
      model holds exactly what they build from the empty model. */
  class BinaryQuadraticModel {
    var linear: map<Var, int>
    var quadratic: map<Edge, int>
    var offset: int
    ghost var log: seq<Op>

    function Value(): Model
      reads this
    {
      Model(linear, quadratic, offset)
    }

    ghost predicate Valid()
      reads this
    {
      Value() == Apply(Empty, log)
    }

    constructor ()
      ensures Valid() && log == [] && Value() == Empty
    {
      linear, quadratic, offset := map[], map[], 0;
      log := [];
    }

    /** add_variable(v, bias): create v if it is new and add bias to its linear bias. */
    method AddVariable(v: Var, bias: int)
      requires Valid()
      modifies this
      ensures Valid() && log == old(log) + [AddLinear(v, bias)]
      ensures Value() == LinearAdded(old(Value()), v, bias)
    {
      var current := if v in linear then linear[v] else 0;
      linear := linear[v := current + bias];
      log := log + [AddLinear(v, bias)];
      ApplySnoc(Empty, old(log), AddLinear(v, bias));
    }

    /** add_quadratic(u, v, bias): create u and v if they are new and add bias
        to the bias of the pair {u, v}. */
    method AddQuadratic(u: Var, v: Var, bias: int)
      requires u != v
      requires Valid()
      modifies this
      ensures Valid() && log == old(log) + [AddQuad(u, v, bias)]
      ensures Value() == QuadraticAdded(old(Value()), u, v, bias)
    {
      var bu := if u in linear then linear[u] else 0;
      linear := linear[u := bu];
      var bv := if v in linear then linear[v] else 0;
      linear := linear[v := bv];
      var e := Key(u, v);
      var current := if e in quadratic then quadratic[e] else 0;
      quadratic := quadratic[e := current + bias];
      assert Value() == QuadraticAdded(old(Value()), u, v, bias);
      log := log + [AddQuad(u, v, bias)];
      ApplySnoc(Empty, old(log), AddQuad(u, v, bias));
    }

    /** The cross terms between term k of a constraint and each earlier term. */
    method AddCrossTerms(terms: seq<Term>, k: nat, lam: int)
      requires DistinctVars(terms) && k < |terms|
      requires Valid()
      modifies this
      ensures Valid() && log == old(log) + PairOps(terms, k, k, lam)
    {
      var (v, b) := terms[k];
      var a := 0;
      while a < k
        invariant 0 <= a <= k
        invariant Valid() && log == old(log) + PairOps(terms, k, a, lam)
      {
        AddQuadratic(terms[a].0, v, PairBias(terms[a].1, b, lam));
        Assoc(old(log), PairOps(terms, k, a, lam), [AddQuad(terms[a].0, v, PairBias(terms[a].1, b, lam))]);
        a := a + 1;
      }
    }

    /** add_linear_equality_constraint(terms, constant, lagrange_multiplier). */
    method AddLinearEqualityConstraint(terms: seq<Term>, constant: int, lagrangeMultiplier: int)
      requires DistinctVars(terms)
      requires Valid()
      modifies this
      ensures Valid() && log == old(log) + ConstraintOps(terms, constant, lagrangeMultiplier)
      ensures Value() == ConstraintAdded(old(Value()), terms, constant, lagrangeMultiplier)
    {
      var lam := lagrangeMultiplier;
      var first := AddOffset(lam * constant * constant);
      offset := offset + lam * constant * constant;
      log := log + [first];
      ApplySnoc(Empty, old(log), first);
      assert old(log) + [first] + TermsOps(terms, 0, constant, lam) == old(log) + [first];
      var k := 0;
      while k < |terms|
        invariant 0 <= k <= |terms|
        invariant Valid() && log == old(log) + [first] + TermsOps(terms, k, constant, lam)
      {
        var (v, b) := terms[k];
        AddVariable(v, SelfBias(b, constant, lam));
        AddCrossTerms(terms, k, lam);
        TermsOpsNext(old(log) + [first], terms, k, constant, lam);
        k := k + 1;
      }
      Assoc(old(log), [first], TermsOps(terms, |terms|, constant, lam));
      ApplyConcat(Empty, old(log), ConstraintOps(terms, constant, lam));
    }
  }
}
