/** Flattening a sequence of sequences, and where each element lands. */
module Sequences {

  /** The elements of `xss[0]`, then of `xss[1]`, and so on. */
  function Concat<T>(xss: seq<seq<T>>): seq<T> {
    if |xss| == 0 then [] else Concat(xss[..|xss| - 1]) + xss[|xss| - 1]
  }

  lemma ConcatSnoc<T>(xss: seq<seq<T>>, x: seq<T>)
    ensures Concat(xss + [x]) == Concat(xss) + x
  {
    assert (xss + [x])[..|xss|] == xss;
  }

  /** When every piece has width `w`, the whole has `|xss| * w` elements. */
  lemma {:induction false} ConcatUniformLength<T>(xss: seq<seq<T>>, w: nat)
    requires forall k :: 0 <= k < |xss| ==> |xss[k]| == w
    ensures |Concat(xss)| == |xss| * w
  {
    if |xss| > 0 {
      ConcatUniformLength(xss[..|xss| - 1], w);
      assert |Concat(xss)| == (|xss| - 1) * w + w;
    }
  }

  /** Element `t` of piece `i` sits after everything in the pieces before it. */
  lemma {:induction false} ConcatAt<T>(xss: seq<seq<T>>, i: nat, t: nat)
    requires i < |xss| && t < |xss[i]|
    ensures |Concat(xss[..i])| + t < |Concat(xss)|
    ensures Concat(xss)[|Concat(xss[..i])| + t] == xss[i][t]
  {
    var n := |xss|;
    if i < n - 1 {
      var init := xss[..n - 1];
      ConcatAt(init, i, t);
      assert init[..i] == xss[..i];
    } else {
      assert xss[..n - 1] == xss[..i];
    }
  }

  /** Every position of the flattened sequence comes from exactly one piece. */
  lemma {:induction false} ConcatLocate<T>(xss: seq<seq<T>>, p: nat) returns (i: nat, t: nat)
    requires p < |Concat(xss)|
    ensures i < |xss| && t < |xss[i]|
    ensures p == |Concat(xss[..i])| + t
    ensures Concat(xss)[p] == xss[i][t]
  {
    var n := |xss|;
    var init := xss[..n - 1];
    if p < |Concat(init)| {
      i, t := ConcatLocate(init, p);
      assert init[..i] == xss[..i];
    } else {
      i, t := n - 1, p - |Concat(init)|;
    }
  }
}
