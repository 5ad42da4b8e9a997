/** Facts about finite sequences that several components share. */
module Sequences {

  datatype Option<+T> = None | Some(value: T)

  /** `xs` can be obtained from `ys` by deleting elements, keeping the order. */
  ghost predicate Subseq<T>(xs: seq<T>, ys: seq<T>)
    decreases |ys|
  {
    if xs == [] then true
    else if ys == [] then false
    else
      var xsInit, ysInit := xs[..|xs| - 1], ys[..|ys| - 1];
      (xs[|xs| - 1] == ys[|ys| - 1] && Subseq(xsInit, ysInit)) || Subseq(xs, ysInit)
  }

  /** `at` lists strictly increasing positions of `ys` whose elements are, in order, those of `xs`. */
  ghost predicate PickedAt<T>(xs: seq<T>, ys: seq<T>, at: seq<nat>) {
    && |at| == |xs|
    && (forall i, j :: 0 <= i < j < |at| ==> at[i] < at[j])
    && (forall i :: 0 <= i < |at| ==> at[i] < |ys| && ys[at[i]] == xs[i])
  }

  /** The recursive definition says what a reader expects of a subsequence. */
  lemma {:induction false} SubseqIsPicking<T>(xs: seq<T>, ys: seq<T>) returns (at: seq<nat>)
    requires Subseq(xs, ys)
    ensures PickedAt(xs, ys, at)
    decreases |ys|
  {
    if xs == [] {
      at := [];
    } else {
      var n, m := |xs| - 1, |ys| - 1;
      if xs[n] == ys[m] && Subseq(xs[..n], ys[..m]) {
        at := SubseqIsPicking(xs[..n], ys[..m]);
        at := at + [m];
      } else {
        at := SubseqIsPicking(xs, ys[..m]);
      }
    }
  }

  lemma SubseqSkip<T>(xs: seq<T>, ys: seq<T>, y: T)
    requires Subseq(xs, ys)
    ensures Subseq(xs, ys + [y])
  {
    assert (ys + [y])[..|ys|] == ys;
  }

  lemma SubseqSnoc<T>(xs: seq<T>, ys: seq<T>, x: T)
    requires Subseq(xs, ys)
    ensures Subseq(xs + [x], ys + [x])
  {
    assert (ys + [x])[..|ys|] == ys && (xs + [x])[..|xs|] == xs;
  }

  lemma {:induction false} SubseqInit<T>(xs: seq<T>, ys: seq<T>)
    requires xs != [] && Subseq(xs, ys)
    ensures Subseq(xs[..|xs| - 1], ys)
    decreases |ys|
  {
    var n, m := |xs| - 1, |ys| - 1;
    if xs[n] == ys[m] && Subseq(xs[..n], ys[..m]) {
      SubseqSkip(xs[..n], ys[..m], ys[m]);
      assert ys[..m] + [ys[m]] == ys;
    } else {
      SubseqInit(xs, ys[..m]);
      SubseqSkip(xs[..n], ys[..m], ys[m]);
      assert ys[..m] + [ys[m]] == ys;
    }
  }

  lemma {:induction false} SubseqPrefix<T>(xs: seq<T>, k: nat, ys: seq<T>)
    requires k <= |xs| && Subseq(xs, ys)
    ensures Subseq(xs[..k], ys)
    decreases |xs|
  {
    if k == |xs| {
      assert xs[..k] == xs;
    } else {
      SubseqInit(xs, ys);
      SubseqPrefix(xs[..|xs| - 1], k, ys);
      assert xs[..|xs| - 1][..k] == xs[..k];
    }
  }

  /** Moving the head of the second part to the end of the first changes nothing. */
  lemma SubseqTake<T>(xs: seq<T>, q: seq<T>, ys: seq<T>)
    requires q != [] && Subseq(xs + q, ys)
    ensures xs + [q[0]] + q[1..] == xs + q
    ensures Subseq(xs + [q[0]], ys)
  {
    SubseqPrefix(xs + q, |xs| + 1, ys);
    assert (xs + q)[..|xs| + 1] == xs + [q[0]];
  }

  lemma {:induction false} SubseqExtend<T>(xs: seq<T>, ys: seq<T>, more: seq<T>)
    requires Subseq(xs, ys)
    ensures Subseq(xs, ys + more)
    decreases |more|
  {
    if more == [] {
      assert ys + more == ys;
    } else {
      var k := |more| - 1;
      SubseqExtend(xs, ys, more[..k]);
      SubseqSkip(xs, ys + more[..k], more[k]);
      assert ys + more[..k] + [more[k]] == ys + more;
    }
  }

  lemma {:induction false} SubseqTransitive<T>(xs: seq<T>, ys: seq<T>, zs: seq<T>)
    requires Subseq(xs, ys) && Subseq(ys, zs)
    ensures Subseq(xs, zs)
    decreases |zs|, |ys|
  {
    if xs != [] {
      var n, m, p := |xs| - 1, |ys| - 1, |zs| - 1;
      if ys[m] == zs[p] && Subseq(ys[..m], zs[..p]) {
        if xs[n] == ys[m] && Subseq(xs[..n], ys[..m]) {
          SubseqTransitive(xs[..n], ys[..m], zs[..p]);
        } else {
          SubseqTransitive(xs, ys[..m], zs[..p]);
        }
      } else {
        SubseqTransitive(xs, ys, zs[..p]);
      }
    }
  }

  lemma {:induction false} SubseqLength<T>(xs: seq<T>, ys: seq<T>)
    requires Subseq(xs, ys)
    ensures |xs| <= |ys|
    ensures |xs| == |ys| ==> xs == ys
    decreases |ys|
  {
    if xs != [] {
      var n, m := |xs| - 1, |ys| - 1;
      if xs[n] == ys[m] && Subseq(xs[..n], ys[..m]) {
        SubseqLength(xs[..n], ys[..m]);
        InitLast(xs);
        InitLast(ys);
      } else {
        SubseqLength(xs, ys[..m]);
      }
    }
  }

  /** All elements of a sequence of sequences, in order. */
  function Flatten<T>(xss: seq<seq<T>>): seq<T> {
    if xss == [] then [] else Flatten(xss[..|xss| - 1]) + xss[|xss| - 1]
  }

  lemma FlattenSnoc<T>(xss: seq<seq<T>>, xs: seq<T>)
    ensures Flatten(xss + [xs]) == Flatten(xss) + xs
  {
    assert (xss + [xs])[..|xss|] == xss;
  }

  lemma {:induction false} FlattenPrefix<T>(xss: seq<seq<T>>, yss: seq<seq<T>>)
    requires xss <= yss
    ensures Flatten(xss) <= Flatten(yss)
    decreases |yss|
  {
    if |xss| == |yss| {
      assert xss == yss;
    } else {
      var k := |yss| - 1;
      FlattenPrefix(xss, yss[..k]);
      assert Flatten(yss) == Flatten(yss[..k]) + yss[k];
    }
  }

  /** Leaving out at least one non-empty block leaves a shorter whole. */
  lemma {:induction false} FlattenSubseqShorter<T>(xss: seq<seq<T>>, yss: seq<seq<T>>)
    requires Subseq(xss, yss)
    requires forall i :: 0 <= i < |yss| ==> yss[i] != []
    ensures |xss| <= |yss| && |Flatten(xss)| <= |Flatten(yss)|
    ensures |xss| < |yss| ==> |Flatten(xss)| < |Flatten(yss)|
    ensures |xss| == |yss| ==> xss == yss
    decreases |yss|
  {
    if xss == [] {
      if yss != [] {
        assert |yss[|yss| - 1]| > 0;
      }
    } else {
      var n, m := |xss| - 1, |yss| - 1;
      assert |yss[m]| > 0;
      if xss[n] == yss[m] && Subseq(xss[..n], yss[..m]) {
        FlattenSubseqShorter(xss[..n], yss[..m]);
        assert xss == xss[..n] + [xss[n]] && yss == yss[..m] + [yss[m]];
      } else {
        FlattenSubseqShorter(xss, yss[..m]);
      }
    }
  }

  /** The last element put back on what comes before it. */
  lemma InitLast<T>(xs: seq<T>)
    requires xs != []
    ensures xs == xs[..|xs| - 1] + [xs[|xs| - 1]]
  {
  }
}
