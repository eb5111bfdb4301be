// closestPoint (src/js/glify/points.js): a reduce, with no initial value, over
// the click's candidates that keeps the nearer of the running choice and the
// next candidate by planar distance in (lat, lng) degrees.

module Nearest {
  import opened Glify
  import opened Grid

  /** Squared planar distance. The source compares square roots of these
      values; the square root is increasing on them, so `<` agrees. */
  function Dist2(t: LatLng, p: Pixel): (d: real)
    ensures d >= 0.0
  {
    var dx := t.lat - p.lat;
    var dy := t.lng - p.lng;
    dx * dx + dy * dy
  }

  /** The reduce step: keep `prev` only when it is strictly nearer. */
  function Nearer(t: LatLng, prev: Pixel, curr: Pixel): (r: Pixel)
    ensures r == prev || r == curr
    ensures Dist2(t, r) <= Dist2(t, prev) && Dist2(t, r) <= Dist2(t, curr)
    ensures Dist2(t, prev) == Dist2(t, curr) ==> r == curr
  {
    if Dist2(t, prev) < Dist2(t, curr) then prev else curr
  }

  /** The accumulator after the reduce has consumed `pts[..n]`. */
  function Reduced(t: LatLng, pts: seq<Pixel>, n: nat): (r: Pixel)
    requires 1 <= n <= |pts|
    ensures r in pts[..n]
  {
    if n == 1 then pts[0] else Nearer(t, Reduced(t, pts, n - 1), pts[n - 1])
  }

  /** `points.reduce(...)`: throws on an empty candidate list, as a reduce
      without an initial value does, instead of returning null. */
  function ClosestPoint(t: LatLng, pts: seq<Pixel>): (r: Result<Pixel, Error>)
    ensures r.Err? <==> pts == []
    ensures r.Ok? ==> r.value in pts
  {
    if pts == [] then Err(TypeError) else assert pts[..|pts|] == pts; Ok(Reduced(t, pts, |pts|))
  }

  /** `j` is a nearest candidate and every later candidate is strictly farther:
      among candidates at the same least distance the last one wins. */
  ghost predicate IsLastNearest(t: LatLng, pts: seq<Pixel>, j: int) {
    && 0 <= j < |pts|
    && (forall k :: 0 <= k < |pts| ==> Dist2(t, pts[j]) <= Dist2(t, pts[k]))
    && (forall k :: j < k < |pts| ==> Dist2(t, pts[j]) < Dist2(t, pts[k]))
  }

  lemma {:induction false} ReducedIsLastNearest(t: LatLng, pts: seq<Pixel>, n: nat) returns (j: nat)
    requires 1 <= n <= |pts|
    ensures IsLastNearest(t, pts[..n], j) && Reduced(t, pts, n) == pts[j]
  {
    if n == 1 {
      j := 0;
    } else {
      var i := ReducedIsLastNearest(t, pts, n - 1);
      assert forall k :: 0 <= k < n - 1 ==> pts[..n - 1][k] == pts[..n][k];
      if Dist2(t, pts[i]) < Dist2(t, pts[n - 1]) {
        j := i;
      } else {
        j := n - 1;
      }
    }
  }

  /** closestPoint returns a candidate of least distance to the click, and of
      those the last in candidate order. */
  lemma ClosestPointIsLastNearest(t: LatLng, pts: seq<Pixel>) returns (j: nat)
    requires pts != []
    ensures IsLastNearest(t, pts, j) && ClosestPoint(t, pts) == Ok(pts[j])
  {
    j := ReducedIsLastNearest(t, pts, |pts|);
    assert pts[..|pts|] == pts;
  }

  /** A later candidate at exactly the same distance replaces an earlier one. */
  lemma TieGoesToLater(t: LatLng, a: Pixel, b: Pixel)
    requires Dist2(t, a) == Dist2(t, b)
    ensures ClosestPoint(t, [a, b]) == Ok(b)
  {
  }

  /** Points at (0, 0) and (0, 1), a click at (0, 0.1): the first wins. */
  lemma NearerOfTwo()
    ensures ClosestPoint(LatLng(0.0, 0.1), [Pixel(0.0, 0.0, 0.0, 0.0, Cell(0, 0)), Pixel(0.0, 1.0, 0.0, 0.0, Cell(0, 100))])
            == Ok(Pixel(0.0, 0.0, 0.0, 0.0, Cell(0, 0)))
  {
    var t := LatLng(0.0, 0.1);
    var a := Pixel(0.0, 0.0, 0.0, 0.0, Cell(0, 0));
    var b := Pixel(0.0, 1.0, 0.0, 0.0, Cell(0, 100));
    assert Dist2(t, a) == 0.01;
    assert Dist2(t, b) == 0.81;
    assert Reduced(t, [a, b], 2) == Nearer(t, a, b);
  }
}
