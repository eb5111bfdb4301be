// The layer's click index (src/js/glify/points.js): every projected point is
// appended to the bucket of the 0.01° grid cell its latitude and longitude fall
// in, and a click scans the 7×7 cells around it.

module Grid {

  /** A geographic position `{lat, lng}` or `[lat, lng]`, in degrees. */
  datatype LatLng = LatLng(lat: real, lng: real)

  /** A grid cell: latitude and longitude quantized to hundredths of a degree. */
  datatype Cell = Cell(lat: int, lng: int)

  /** An indexed point `{lat, lng, x, y, key}`. */
  datatype Pixel = Pixel(lat: real, lng: real, x: real, y: real, key: Cell)

  /** The index `latLngLookup`: a bucket of points per cell. */
  type Index = map<Cell, seq<Pixel>>

  /** How many cells the scan reaches on each side of the click (0.03°). */
  const Reach: int := 3

  /** Quantization of one coordinate to hundredths: the integer nearest 100·v,
      halves rounded upward, so every cell is the same half-open 0.01° interval. */
  function Hundredths(v: real): (n: int)
    ensures n as real - 0.5 <= 100.0 * v < n as real + 0.5
  {
    (100.0 * v + 0.5).Floor
  }

  function CellOf(lat: real, lng: real): Cell {
    Cell(Hundredths(lat), Hundredths(lng))
  }

  /** Moving a coordinate by k hundredths moves its cell by exactly k. */
  lemma HundredthsShift(v: real, k: int)
    ensures Hundredths(v + k as real / 100.0) == Hundredths(v) + k
  {
    var n := Hundredths(v);
    var m := Hundredths(v + k as real / 100.0);
    assert 100.0 * (v + k as real / 100.0) == 100.0 * v + k as real;
    assert m - k == n;
  }

  /** Two coordinates at most 0.03° apart fall in cells at most 3 apart. */
  lemma HundredthsClose(a: real, b: real)
    requires -0.03 <= a - b <= 0.03
    ensures -Reach <= Hundredths(a) - Hundredths(b) <= Reach
  {
  }

  /** The 0.03° bound is tight: coordinates 0.031° apart can be 4 cells apart. */
  lemma HundredthsCloseIsTight()
    ensures Hundredths(0.0355) - Hundredths(0.0045) == Reach + 1
  {
    assert (100.0 * 0.0355 + 0.5).Floor == 4;
    assert (100.0 * 0.0045 + 0.5).Floor == 0;
  }

  /** Cells at most 3 apart hold coordinates less than 0.04° apart. */
  lemma HundredthsNear(a: real, b: real)
    requires -Reach <= Hundredths(a) - Hundredths(b) <= Reach
    ensures -0.04 < a - b < 0.04
  {
  }

  // ---------------------------------------------------------------------------
  // The bucket map

  function Bucket(idx: Index, c: Cell): seq<Pixel> {
    if c in idx then idx[c] else []
  }

  /** What latLngToPixelXY does to the index: the point is appended to the
      bucket of its own key (created if missing); no other bucket changes. */
  function Insert(idx: Index, p: Pixel): (r: Index)
    ensures r.Keys == idx.Keys + {p.key}
    ensures Bucket(r, p.key) == Bucket(idx, p.key) + [p]
    ensures forall c :: c != p.key ==> Bucket(r, c) == Bucket(idx, c)
  {
    idx[p.key := Bucket(idx, p.key) + [p]]
  }

  /** The index that inserting `ps` one by one into an empty index builds. */
  function IndexOf(ps: seq<Pixel>): (r: Index)
    ensures r == map[] <==> ps == []
    ensures ps != [] ==> ps[|ps| - 1] in Bucket(r, ps[|ps| - 1].key)
  {
    if ps == [] then map[] else Insert(IndexOf(ps[..|ps| - 1]), ps[|ps| - 1])
  }

  /** The points of `ps` whose key is `c`, in their order in `ps`. */
  function InCell(ps: seq<Pixel>, c: Cell): seq<Pixel> {
    if ps == [] then []
    else InCell(ps[..|ps| - 1], c) + (if ps[|ps| - 1].key == c then [ps[|ps| - 1]] else [])
  }

  lemma {:induction false} InCellMembers(ps: seq<Pixel>, c: Cell, p: Pixel)
    ensures p in InCell(ps, c) <==> p in ps && p.key == c
  {
    if ps != [] {
      InCellMembers(ps[..|ps| - 1], c, p);
      assert ps == ps[..|ps| - 1] + [ps[|ps| - 1]];
    }
  }

  /** After inserting `ps` into an empty index, each bucket holds exactly the
      points of `ps` in that cell, in their original order, and the index has a
      bucket exactly for the cells some point falls in. */
  lemma {:induction false} IndexOfBuckets(ps: seq<Pixel>, c: Cell)
    ensures Bucket(IndexOf(ps), c) == InCell(ps, c)
    ensures c in IndexOf(ps) <==> InCell(ps, c) != []
  {
    if ps != [] {
      IndexOfBuckets(ps[..|ps| - 1], c);
    }
  }

  /** Every point stored in a bucket carries that bucket's key. */
  ghost predicate KeysAgree(idx: Index) {
    forall c, j :: c in idx && 0 <= j < |idx[c]| ==> idx[c][j].key == c
  }

  lemma InsertKeepsKeysAgree(idx: Index, p: Pixel)
    requires KeysAgree(idx)
    ensures KeysAgree(Insert(idx, p))
  {
    var r: map<Cell, seq<Pixel>> := Insert(idx, p);
    forall c: Cell, j: int | c in r && 0 <= j < |r[c]| ensures r[c][j].key == c {
      if c == p.key {
        assert r[c] == Bucket(idx, c) + [p];
      } else {
        assert r[c] == idx[c];
      }
    }
  }

  lemma {:induction false} IndexOfKeysAgree(ps: seq<Pixel>)
    ensures KeysAgree(IndexOf(ps))
  {
    if ps != [] {
      IndexOfKeysAgree(ps[..|ps| - 1]);
      InsertKeepsKeysAgree(IndexOf(ps[..|ps| - 1]), ps[|ps| - 1]);
    }
  }

  // ---------------------------------------------------------------------------
  // The scan of `lookup`

  /** The buckets of row `lat`, columns `lng0 .. lng0 + cols - 1`, concatenated
      in column order. */
  function RowScan(idx: Index, lat: int, lng0: int, cols: nat): seq<Pixel> {
    if cols == 0 then [] else RowScan(idx, lat, lng0, cols - 1) + Bucket(idx, Cell(lat, lng0 + cols - 1))
  }

  /** Rows `lat0 .. lat0 + rows - 1` of RowScan, concatenated latitude-outer. */
  function GridScan(idx: Index, lat0: int, lng0: int, rows: nat, cols: nat): seq<Pixel> {
    if rows == 0 then [] else GridScan(idx, lat0, lng0, rows - 1, cols) + RowScan(idx, lat0 + rows - 1, lng0, cols)
  }

  /** The candidates of a click in cell `center`: the 7×7 cells around it. */
  function Window(idx: Index, center: Cell): (r: seq<Pixel>)
    ensures forall p :: p in Bucket(idx, center) ==> p in r
  {
    var r := GridScan(idx, center.lat - Reach, center.lng - Reach, 2 * Reach + 1, 2 * Reach + 1);
    assert forall p :: p in Bucket(idx, center) ==> p in r by {
      forall p | p in Bucket(idx, center) ensures p in r {
        GridScanMembers(idx, center.lat - Reach, center.lng - Reach, 2 * Reach + 1, 2 * Reach + 1, p);
      }
    }
    r
  }

  lemma {:induction false} RowScanMembers(idx: Index, lat: int, lng0: int, cols: nat, p: Pixel)
    ensures p in RowScan(idx, lat, lng0, cols) <==>
            exists j :: lng0 <= j < lng0 + cols && p in Bucket(idx, Cell(lat, j))
  {
    if cols > 0 {
      RowScanMembers(idx, lat, lng0, cols - 1, p);
    }
  }

  lemma {:induction false} GridScanMembers(idx: Index, lat0: int, lng0: int, rows: nat, cols: nat, p: Pixel)
    ensures p in GridScan(idx, lat0, lng0, rows, cols) <==>
            exists i, j :: lat0 <= i < lat0 + rows && lng0 <= j < lng0 + cols && p in Bucket(idx, Cell(i, j))
  {
    if rows > 0 {
      var last := lat0 + rows - 1;
      GridScanMembers(idx, lat0, lng0, rows - 1, cols, p);
      RowScanMembers(idx, last, lng0, cols, p);
      if p in GridScan(idx, lat0, lng0, rows, cols) {
        if p in RowScan(idx, last, lng0, cols) {
          var j :| lng0 <= j < lng0 + cols && p in Bucket(idx, Cell(last, j));
          assert lat0 <= last < lat0 + rows;
        }
      } else {
        forall i, j | lat0 <= i < lat0 + rows && lng0 <= j < lng0 + cols
          ensures p !in Bucket(idx, Cell(i, j))
        {
          if i == last {
            assert p !in RowScan(idx, last, lng0, cols);
          }
        }
      }
    }
  }

  /** The window holds exactly the stored points whose cell lies within three
      cells of the centre on both axes. */
  lemma WindowMembers(idx: Index, center: Cell, p: Pixel)
    requires KeysAgree(idx)
    ensures p in Window(idx, center) <==>
            p.key in idx && p in idx[p.key]
            && -Reach <= p.key.lat - center.lat <= Reach
            && -Reach <= p.key.lng - center.lng <= Reach
  {
    GridScanMembers(idx, center.lat - Reach, center.lng - Reach, 2 * Reach + 1, 2 * Reach + 1, p);
    if p in Window(idx, center) {
      var i, j :| center.lat - Reach <= i < center.lat + Reach + 1 && center.lng - Reach <= j < center.lng + Reach + 1
                  && p in Bucket(idx, Cell(i, j));
      var k :| 0 <= k < |idx[Cell(i, j)]| && idx[Cell(i, j)][k] == p;
      assert p.key == Cell(i, j);
    }
  }

  /** Hit-test completeness: a point indexed from `ps` that lies within 0.03°
      of the click on both axes is among the click's candidates. */
  lemma WindowFindsNeighbours(ps: seq<Pixel>, p: Pixel, lat: real, lng: real)
    requires p in ps && p.key == CellOf(p.lat, p.lng)
    requires -0.03 <= p.lat - lat <= 0.03 && -0.03 <= p.lng - lng <= 0.03
    ensures p in Window(IndexOf(ps), CellOf(lat, lng))
  {
    HundredthsClose(p.lat, lat);
    HundredthsClose(p.lng, lng);
    IndexOfBuckets(ps, p.key);
    InCellMembers(ps, p.key, p);
    IndexOfKeysAgree(ps);
    WindowMembers(IndexOf(ps), CellOf(lat, lng), p);
  }

  /** Hit-test soundness: every candidate of a click is one of the indexed
      points and lies less than 0.04° from the click on both axes. */
  lemma WindowOnlyNear(ps: seq<Pixel>, q: Pixel, lat: real, lng: real)
    requires forall p :: p in ps ==> p.key == CellOf(p.lat, p.lng)
    requires q in Window(IndexOf(ps), CellOf(lat, lng))
    ensures q in ps
    ensures -0.04 < q.lat - lat < 0.04 && -0.04 < q.lng - lng < 0.04
  {
    IndexOfKeysAgree(ps);
    WindowMembers(IndexOf(ps), CellOf(lat, lng), q);
    IndexOfBuckets(ps, q.key);
    InCellMembers(ps, q.key, q);
    HundredthsNear(q.lat, lat);
    HundredthsNear(q.lng, lng);
  }

  // ---------------------------------------------------------------------------
  // The key as the source writes it: `v.toFixed(2)`

  /** What `v.toFixed(2)` distinguishes: the sign (a "-" whenever v < 0) and
      the magnitude in hundredths, rounded to nearest with halves upward. */
  datatype Fixed2 = Fixed2(negative: bool, hundredths: nat)

  function ToFixed2(v: real): (f: Fixed2)
    ensures f.negative <==> v < 0.0
    ensures f.hundredths as real - 0.5 <= 100.0 * (if v < 0.0 then -v else v) < f.hundredths as real + 0.5
  {
    var m := if v < 0.0 then -v else v;
    Fixed2(v < 0.0, (100.0 * m + 0.5).Floor)
  }

  /** The latitude keys the source's scan visits for a click at `lat`: row k
      of 7 is `(lat - 0.03 + k·0.01).toFixed(2)`. */
  function ScannedFixedKeys(lat: real): seq<Fixed2> {
    seq(2 * Reach + 1, k requires 0 <= k < 2 * Reach + 1 => ToFixed2(lat - 0.03 + k as real / 100.0))
  }

  /** With toFixed keys the scan is not translation-invariant at zero: "-0.00"
      and "0.00" are two half-width cells, and a scan steps over one of them.
      A point at latitude -0.001 is not among the rows scanned for a click at
      latitude 0.001, 0.002° away. */
  lemma ToFixedScanSkipsNegativeZero()
    ensures ToFixed2(-0.001) == Fixed2(true, 0)
    ensures ToFixed2(-0.001) !in ScannedFixedKeys(0.001)
  {
    var keys := ScannedFixedKeys(0.001);
    assert keys[0] == Fixed2(true, 3);
    assert keys[1] == Fixed2(true, 2);
    assert keys[2] == Fixed2(true, 1);
    assert keys[3] == Fixed2(false, 0);
    assert keys[4] == Fixed2(false, 1);
    assert keys[5] == Fixed2(false, 2);
    assert keys[6] == Fixed2(false, 3);
  }

  /** With the uniform cells of Hundredths the same scan visits seven
      consecutive cells centred on the click's own cell. */
  lemma ScanRowsAreConsecutive(lat: real, k: int)
    ensures Hundredths(lat - 0.03 + k as real / 100.0) == Hundredths(lat) - Reach + k
  {
    HundredthsShift(lat, k - Reach);
    assert lat - 0.03 + k as real / 100.0 == lat + (k - Reach) as real / 100.0;
  }

  /** The scan's loop counter: the k-th visited coordinate is still within
      the upper bound exactly while k is below seven, and stepping by 0.01
      moves to the next one. */
  lemma ScanStep(v: real, k: int)
    ensures (v - 0.03 + k as real / 100.0 <= v + 0.03) <==> k < 2 * Reach + 1
    ensures v - 0.03 + k as real / 100.0 + 0.01 == v - 0.03 + (k + 1) as real / 100.0
  {
  }
}
