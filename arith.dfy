/** Arithmetic shared by the pages: the `reduce` sum of an array of counts,
    absolute values, and order facts over the reals used by the percentage
    computations. */
module Arith {
  function AbsReal(x: real): (r: real)
    ensures r >= 0.0 && (r == x || r == -x)
  {
    if x < 0.0 then -x else x
  }

  function AbsInt(x: int): (r: nat)
    ensures r == x || r == -x
  {
    if x < 0 then -x else x
  }

  /** For a positive factor, comparing products compares the other factors. */
  lemma ProductOrder(x: real, y: real, B: real)
    requires B > 0.0
    ensures x > y <==> x * B > y * B
    ensures x <= y <==> x * B <= y * B
  {
    if x > y {
      assert (x - y) * B > 0.0;
    } else {
      assert (y - x) * B >= 0.0;
    }
  }

  /** `xs.reduce((a, b) => a + b, 0)`: a left fold from 0. */
  function Total(xs: seq<nat>): (t: nat)
    ensures |xs| == 0 ==> t == 0
    ensures forall i :: 0 <= i < |xs| ==> xs[i] <= t
    ensures t == 0 <==> forall i :: 0 <= i < |xs| ==> xs[i] == 0
  {
    if |xs| == 0 then 0
    else
      var init := xs[..|xs| - 1];
      assert forall i :: 0 <= i < |init| ==> init[i] == xs[i];
      Total(init) + xs[|xs| - 1]
  }

  /** The fold is additive over concatenation. */
  lemma {:induction false} TotalAppend(a: seq<nat>, b: seq<nat>)
    ensures Total(a + b) == Total(a) + Total(b)
  {
    if |b| == 0 {
      assert a + b == a;
    } else {
      var b' := b[..|b| - 1];
      assert (a + b)[..|a + b| - 1] == a + b';
      TotalAppend(a, b');
    }
  }
}
