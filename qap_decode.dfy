/** Reading an assignment back from the best sample: the loop
    `for (i, p), val in best.items(): if val == 1: print(...)` run over the
    sample's (label, value) items in the model's variable order. As written it
    unpacks every label as a pair (i, p). A tuple label unpacks; a label
    "f{i}_l{p}" is a string of at least five characters and raises
    ValueError. The model create_qap_bqm builds has such labels, so the loop
    fails on every sample of it. DecodeAssignment reads the named variables
    instead, and gives back exactly the permutation a sample encodes. */
module QapDecode {
  import opened Bqm
  import opened Qap
  import opened QapEnergy
  import opened QapSolutions
  import opened QapBiases

  /** One (label, value) item of a sample. */
  type Item = (Var, int)

  /** What the loop as written does: it reports pairs (i, p) and ends, or
      stops at the label it cannot unpack, after reporting `printed`. */
  datatype Outcome = Decoded(pairs: seq<(int, int)>) | UnpackError(key: Var, printed: seq<(int, int)>)

  /** items lists the sample x: each item is a label of x with its value, and
      each label of x has an item. */
  ghost predicate Lists(items: seq<Item>, x: Sample)
  {
    (forall k :: 0 <= k < |items| ==> items[k].0 in x && items[k].1 == x[items[k].0]) &&
    (forall v :: v in x ==> exists k :: 0 <= k < |items| && items[k].0 == v)
  }

  /** Lines 74-76 as written, over the first |items| items. */
  function AsWritten(items: seq<Item>): (r: Outcome)
    ensures r.UnpackError? <==> exists k :: 0 <= k < |items| && items[k].0.Named?
    ensures r.Decoded? ==> forall i, p :: (i, p) in r.pairs <==> exists k :: 0 <= k < |items| && items[k] == (Tup(i, p), 1)
    ensures r.UnpackError? ==> exists k :: 0 <= k < |items| && items[k].0 == r.key && r.key.Named? &&
                                  forall m :: 0 <= m < k ==> items[m].0.Tup?
  {
    if items == [] then Decoded([])
    else
      var before := AsWritten(items[..|items| - 1]);
      var (key, val) := items[|items| - 1];
      if before.UnpackError? then before
      else if key.Named? then UnpackError(key, before.pairs)
      else if val == 1 then Decoded(before.pairs + [(key.i, key.p)])
      else before
  }

  /** When the loop stops, it has printed exactly the tuple labels whose value
      is 1 among the items before the first string label. */
  lemma {:induction false} AsWrittenPrinted(items: seq<Item>)
    requires AsWritten(items).UnpackError?
    ensures forall i, p :: (i, p) in AsWritten(items).printed <==>
              exists k :: 0 <= k < |items| && items[k] == (Tup(i, p), 1) && forall m :: 0 <= m <= k ==> items[m].0.Tup?
  {
    var front := items[..|items| - 1];
    assert forall k :: 0 <= k < |front| ==> front[k] == items[k];
    if AsWritten(front).UnpackError? {
      AsWrittenPrinted(front);
      var j :| 0 <= j < |front| && front[j].0.Named?;
      forall i, p, k | 0 <= k < |items| && items[k] == (Tup(i, p), 1) && forall m :: 0 <= m <= k ==> items[m].0.Tup?
        ensures k < |front|
      {
        assert items[j].0.Named?;
      }
    }
  }

  /** Once the loop has stopped, later items change nothing. */
  lemma {:induction false} StoppedStaysStopped(items: seq<Item>, k: nat)
    requires k <= |items| && AsWritten(items[..k]).UnpackError?
    ensures AsWritten(items) == AsWritten(items[..k])
  {
    if k < |items| {
      assert items[..|items| - 1][..k] == items[..k];
      StoppedStaysStopped(items[..|items| - 1], k);
    } else {
      assert items[..k] == items;
    }
  }

  /** The decoding loop of lines 74-76, as written: reports the tuple labels
      whose value is 1 and raises at the first string label. */
  method DecodeAsWritten(items: seq<Item>) returns (r: Outcome)
    ensures r == AsWritten(items)
  {
    var pairs: seq<(int, int)> := [];
    var k := 0;
    while k < |items|
      invariant 0 <= k <= |items|
      invariant AsWritten(items[..k]) == Decoded(pairs)
    {
      assert items[..k + 1][..k] == items[..k];
      var (key, val) := items[k];
      if key.Named? {
        r := UnpackError(key, pairs);
        StoppedStaysStopped(items, k + 1);
        return;
      }
      if val == 1 {
        pairs := pairs + [(key.i, key.p)];
      }
      k := k + 1;
    }
    assert items[..k] == items;
    r := Decoded(pairs);
  }

  /** Every sample of the model create_qap_bqm builds for at least one
      facility holds the string label f0_l0, so the loop as written raises
      ValueError on it. */
  lemma AsWrittenFailsOnModel(F: seq<seq<int>>, L: seq<seq<int>>, x: Sample, items: seq<Item>)
    requires |F| >= 1
    requires x.Keys == QapModel(F, L).linear.Keys && Lists(items, x)
    ensures AsWritten(items).UnpackError?
  {
    QapVariables(F, L, Named(0, 0));
    assert Named(0, 0) in x;
    var k :| 0 <= k < |items| && items[k].0 == Named(0, 0);
  }

  /** The pairs (i, p) whose variable f{i}_l{p} is 1 in the first |items|
      items: what the loop evidently means to report. */
  function Assignment(items: seq<Item>): (r: seq<(int, int)>)
    ensures forall i, p :: (i, p) in r <==> exists k :: 0 <= k < |items| && items[k] == (Named(i, p), 1)
  {
    if items == [] then []
    else
      var before := Assignment(items[..|items| - 1]);
      var (key, val) := items[|items| - 1];
      if key.Named? && val == 1 then before + [(key.i, key.p)] else before
  }

  /** The decoding loop corrected: reads the named variables, skips the tuple
      variables (which no term of the model constrains). */
  method DecodeAssignment(items: seq<Item>) returns (pairs: seq<(int, int)>)
    ensures pairs == Assignment(items)
  {
    pairs := [];
    var k := 0;
    while k < |items|
      invariant 0 <= k <= |items|
      invariant pairs == Assignment(items[..k])
    {
      assert items[..k + 1][..k] == items[..k];
      var (key, val) := items[k];
      if key.Named? && val == 1 {
        pairs := pairs + [(key.i, key.p)];
      }
      k := k + 1;
    }
    assert items[..k] == items;
  }

  /** Decoding a sample of the model that encodes the permutation s gives
      back s: facility i is reported at location s[i] and nowhere else. */
  lemma DecodeRoundTrip(F: seq<seq<int>>, L: seq<seq<int>>, x: Sample, items: seq<Item>, s: seq<int>)
    requires x.Keys == QapModel(F, L).linear.Keys && Lists(items, x)
    requires IsPermutation(s, |F|) && Encodes(x, s, |F|)
    ensures forall i, p :: (i, p) in Assignment(items) <==> 0 <= i < |F| && p == s[i]
  {
    var n := |F|;
    forall i, p
      ensures (i, p) in Assignment(items) <==> 0 <= i < n && p == s[i]
    {
      QapVariables(F, L, Named(i, p));
      if 0 <= i < n && p == s[i] {
        assert Placed(x, i, p) == 1;
        var k :| 0 <= k < |items| && items[k].0 == Named(i, p);
        assert items[k] == (Named(i, p), 1);
      }
      if (i, p) in Assignment(items) {
        var k :| 0 <= k < |items| && items[k] == (Named(i, p), 1);
        assert Named(i, p) in x && Placed(x, i, p) == 1;
      }
    }
  }
}
