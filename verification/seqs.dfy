/** Sequence facts the pattern builder relies on: flattening a sequence of
    equally long blocks, and order-preserving subsequences. */
module Seqs {

  function Flatten<T>(xss: seq<seq<T>>): seq<T>
  {
    if |xss| == 0 then [] else xss[0] + Flatten(xss[1..])
  }

  /** `xs` is obtained from `ys` by deleting elements, keeping the order. */
  predicate IsSubsequence<T(==)>(xs: seq<T>, ys: seq<T>)
    decreases |ys|
  {
    if |xs| == 0 then true
    else if |ys| == 0 then false
    else (xs[0] == ys[0] && IsSubsequence(xs[1..], ys[1..])) || IsSubsequence(xs, ys[1..])
  }

  lemma MulSucc(k: int, m: int)
    ensures (k + 1) * m == k * m + m
  {
  }

  lemma AppendAssoc<T>(a: seq<T>, b: seq<T>, c: seq<T>)
    ensures (a + b) + c == a + (b + c)
  {
  }

  lemma {:induction false} FlattenLength<T>(xss: seq<seq<T>>, m: nat)
    requires forall i | 0 <= i < |xss| :: |xss[i]| == m
    ensures |Flatten(xss)| == |xss| * m
  {
    if |xss| > 0 {
      FlattenLength(xss[1..], m);
      MulSucc(|xss| - 1, m);
    }
  }

  lemma {:induction false} FlattenAt<T>(xss: seq<seq<T>>, m: nat, i: nat, j: nat)
    requires forall k | 0 <= k < |xss| :: |xss[k]| == m
    requires i < |xss| && j < m
    ensures i * m + j < |Flatten(xss)| && Flatten(xss)[i * m + j] == xss[i][j]
  {
    FlattenLength(xss, m);
    if i > 0 {
      var rest := xss[1..];
      FlattenAt(rest, m, i - 1, j);
      MulSucc(i - 1, m);
      assert rest[i - 1] == xss[i];
      assert |xss[0]| == m;
      assert i * m + j == m + ((i - 1) * m + j);
    }
  }

  lemma {:induction false} FlattenMember<T>(xss: seq<seq<T>>, x: T)
    ensures x in Flatten(xss) <==> exists i | 0 <= i < |xss| :: x in xss[i]
  {
    if |xss| > 0 {
      FlattenMember(xss[1..], x);
      if x in Flatten(xss[1..]) {
        var i :| 0 <= i < |xss[1..]| && x in xss[1..][i];
        assert x in xss[i + 1];
      }
      if exists i | 0 <= i < |xss| :: x in xss[i] {
        var i :| 0 <= i < |xss| && x in xss[i];
        if i > 0 {
          assert x in xss[1..][i - 1];
        }
      }
    }
  }
}
