/**
 * Picking what the camera points at.  CheckHook (for hook points) and
 * SetThrowTarget (for throw targets) run the same scan over the sphere-trace
 * hits: keep the hit whose dot product with the camera's forward vector is
 * strictly the highest seen so far, starting from a minimum dot.
 */
module Targeting {
  import opened Optional

  /**
   * The hit the scan ends on after looking at `dots`: a later hit replaces
   * the current pick only when its dot is strictly above the pick's (or
   * above the threshold while there is none).
   */
  function Best(dots: seq<real>, threshold: real): (r: Option<nat>)
    ensures r.Some? ==> r.value < |dots|
  {
    if |dots| == 0 then None
    else
      var prev := Best(dots[..|dots| - 1], threshold);
      if dots[|dots| - 1] > Bar(dots, prev, threshold) then Some(|dots| - 1) else prev
  }

  /** HighestDot: the dot of the current pick, or the threshold while there is none. */
  function Bar(dots: seq<real>, pick: Option<nat>, threshold: real): real
  {
    if pick.Some? && pick.value < |dots| then dots[pick.value] else threshold
  }

  /**
   * The reference meaning of the scan: index k is above the threshold, no
   * hit beats it, and every earlier hit is strictly below it, so it is the
   * first of the hits with the greatest dot.
   */
  predicate FirstMax(dots: seq<real>, threshold: real, k: nat)
  {
    && k < |dots|
    && dots[k] > threshold
    && (forall i :: 0 <= i < |dots| ==> dots[i] <= dots[k])
    && (forall i :: 0 <= i < k ==> dots[i] < dots[k])
  }

  /** Nothing is picked exactly when no hit is above the threshold; otherwise the pick is FirstMax. */
  lemma {:induction false} BestIsFirstMax(dots: seq<real>, threshold: real)
    ensures Best(dots, threshold).None? <==> forall i :: 0 <= i < |dots| ==> dots[i] <= threshold
    ensures Best(dots, threshold).Some? ==> FirstMax(dots, threshold, Best(dots, threshold).value)
  {
    if |dots| > 0 {
      var n := |dots| - 1;
      var front := dots[..n];
      BestIsFirstMax(front, threshold);
      assert forall i :: 0 <= i < n ==> front[i] == dots[i];
    }
  }

  /** At most one index is FirstMax, so the pick is the only one that meets it. */
  lemma FirstMaxUnique(dots: seq<real>, threshold: real, j: nat, k: nat)
    requires FirstMax(dots, threshold, j) && FirstMax(dots, threshold, k)
    ensures j == k
  {
  }

  /** The scan picks k exactly when k is the first of the hits with the greatest dot above the threshold. */
  lemma BestIff(dots: seq<real>, threshold: real, k: nat)
    ensures Best(dots, threshold) == Some(k) <==> FirstMax(dots, threshold, k)
  {
    BestIsFirstMax(dots, threshold);
    if FirstMax(dots, threshold, k) {
      assert Best(dots, threshold).Some?;
      FirstMaxUnique(dots, threshold, k, Best(dots, threshold).value);
    }
  }

  /** Raising the threshold never brings a pick back. */
  lemma HigherThresholdPicksLess(dots: seq<real>, low: real, high: real)
    requires low <= high && Best(dots, low).None?
    ensures Best(dots, high).None?
  {
    BestIsFirstMax(dots, low);
    BestIsFirstMax(dots, high);
  }

  /**
   * The loop of CheckHook and SetThrowTarget: one pass over the hits,
   * keeping the index of the strictly highest dot above the threshold.
   */
  method HighestAbove(dots: seq<real>, threshold: real) returns (best: Option<nat>)
    ensures best == Best(dots, threshold)
    ensures best.None? <==> forall i :: 0 <= i < |dots| ==> dots[i] <= threshold
    ensures best.Some? ==> FirstMax(dots, threshold, best.value)
  {
    var highest := threshold;
    best := None;
    var i := 0;
    while i < |dots|
      invariant 0 <= i <= |dots|
      invariant best == Best(dots[..i], threshold)
      invariant highest == Bar(dots[..i], best, threshold)
    {
      assert dots[..i + 1][..i] == dots[..i];
      if dots[i] > highest {
        best := Some(i);
        highest := dots[i];
      }
      i := i + 1;
    }
    assert dots[..i] == dots;
    BestIsFirstMax(dots, threshold);
  }
}
