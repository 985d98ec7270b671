/**
 * First- and second-order influence kernels from four responses: the
 * baseline Y_base, the responses Y_a and Y_b to single micro-causes and the
 * response Y_ab to both. K_a = Y_a - Y_base and
 * H_ab = (Y_ab - Y_base) - (K_a + K_b).
 */
module Sensitivity {
  import opened Vectors

  /** First-order kernel K_a = Y_a - Y_base. */
  function FirstOrder(ya: seq<real>, ybase: seq<real>): (k: seq<real>)
    requires |ya| == |ybase|
    ensures |k| == |ya|
    ensures forall i :: 0 <= i < |ya| ==> ya[i] == ybase[i] + k[i]
  {
    Sub(ya, ybase)
  }

  /**
   * Second-order (synergy) kernel: what the joint response adds beyond the
   * sum of the two first-order kernels, so that K_a + K_b + H_ab = Y_ab - Y_base.
   */
  function Synergy(yab: seq<real>, ya: seq<real>, yb: seq<real>, ybase: seq<real>): (h: seq<real>)
    requires |yab| == |ya| == |yb| == |ybase|
    ensures |h| == |yab|
    ensures Add(Add(FirstOrder(ya, ybase), FirstOrder(yb, ybase)), h) == Sub(yab, ybase)
  {
    var h := Sub(Sub(yab, ybase), Add(FirstOrder(ya, ybase), FirstOrder(yb, ybase)));
    assert Add(Add(FirstOrder(ya, ybase), FirstOrder(yb, ybase)), h) == Sub(yab, ybase);
    h
  }

  /** The synergy does not depend on which micro-cause is called a and which b. */
  lemma SynergySymmetric(yab: seq<real>, ya: seq<real>, yb: seq<real>, ybase: seq<real>)
    requires |yab| == |ya| == |yb| == |ybase|
    ensures Synergy(yab, ya, yb, ybase) == Synergy(yab, yb, ya, ybase)
  {
    var h1, h2 := Synergy(yab, ya, yb, ybase), Synergy(yab, yb, ya, ybase);
    forall i | 0 <= i < |yab|
      ensures h1[i] == h2[i]
    {
      SynergyAt(yab, ya, yb, ybase, i);
      SynergyAt(yab, yb, ya, ybase, i);
    }
  }

  /** Site i of the synergy kernel. */
  lemma SynergyAt(yab: seq<real>, ya: seq<real>, yb: seq<real>, ybase: seq<real>, i: nat)
    requires |yab| == |ya| == |yb| == |ybase| && i < |yab|
    ensures Synergy(yab, ya, yb, ybase)[i] == yab[i] - ya[i] - yb[i] + ybase[i]
  {
    var ka, kb, h := FirstOrder(ya, ybase), FirstOrder(yb, ybase), Synergy(yab, ya, yb, ybase);
    assert Add(Add(ka, kb), h)[i] == Sub(yab, ybase)[i];
  }

  /**
   * When the joint response is the single response (both micro-causes at one
   * site, so only one is applied) the synergy is minus the first-order kernel.
   */
  lemma SynergyOfOnePoke(ya: seq<real>, ybase: seq<real>)
    requires |ya| == |ybase|
    ensures forall i :: 0 <= i < |ya| ==> Synergy(ya, ya, ya, ybase)[i] == -FirstOrder(ya, ybase)[i]
  {
    forall i | 0 <= i < |ya|
      ensures Synergy(ya, ya, ya, ybase)[i] == -FirstOrder(ya, ybase)[i]
    {
      SynergyAt(ya, ya, ya, ybase, i);
    }
  }
}
