/** The static point cloud: samples on the six faces of the cube [-size, size]^3. */
module PointCloud {
  import opened Space

  /** The six points emitted for one (x, y) sample pair, in the order they are pushed. */
  function FacePoints(size: real, x: real, y: real): (ps: seq<Vec3>)
    ensures |ps| == 6
  {
    [Vec3(x, y, size), Vec3(x, y, -size), Vec3(x, size, y),
     Vec3(x, -size, y), Vec3(size, x, y), Vec3(-size, x, y)]
  }

  /** The value a loop variable holds on its i-th iteration: -size stepped i times by `step`. */
  function Coord(size: real, step: real, i: nat): real
  {
    -size + i as real * step
  }

  /** Advancing a loop variable by `step` moves it to the next sample. */
  lemma CoordNext(size: real, step: real, i: nat)
    ensures Coord(size, step, i) + step == Coord(size, step, i + 1)
  {
  }

  /** Points of outer iteration `i` after inner iterations j < m. */
  function Row(size: real, step: real, i: nat, m: nat): (ps: seq<Vec3>)
    ensures |ps| == 6 * m
  {
    if m == 0 then []
    else Row(size, step, i, m - 1) + FacePoints(size, Coord(size, step, i), Coord(size, step, m - 1))
  }

  /** Points of outer iterations i < k, each running `n` inner iterations. */
  function Grid(size: real, step: real, n: nat, k: nat): (ps: seq<Vec3>)
    ensures |ps| == 6 * n * k
  {
    if k == 0 then []
    else Grid(size, step, n, k - 1) + Row(size, step, k - 1, n)
  }

  /** The whole cloud for `n` samples per axis. */
  function CubePoints(size: real, step: real, n: nat): seq<Vec3>
  {
    Grid(size, step, n, n)
  }

  /**
   * The number of values the loop `for (x = -size; x <= size; x += step)` visits
   * when computed exactly: the i-th value is visited iff it is at most `size`.
   */
  function SampleCount(size: real, step: real): (n: nat)
    requires step > 0.0
    ensures forall i: nat :: i < n <==> Coord(size, step, i) <= size
  {
    if size < 0.0 then 0
    else
      var q := 2.0 * size / step;
      assert q * step == 2.0 * size;
      forall i: nat ensures i <= q.Floor <==> Coord(size, step, i) <= size {
        ScaledLe(i as real, q, step);
      }
      q.Floor + 1
  }

  /** For a positive factor, a <= b iff a*s <= b*s. */
  lemma ScaledLe(a: real, b: real, s: real)
    requires s > 0.0
    ensures a <= b <==> a * s <= b * s
  {
  }

  /** A point on the surface of [-size, size]^3: inside the cube, and on at least one face. */
  predicate OnCube(p: Vec3, size: real)
  {
    -size <= p.x <= size && -size <= p.y <= size && -size <= p.z <= size &&
    (p.x == size || p.x == -size || p.y == size || p.y == -size || p.z == size || p.z == -size)
  }

  /** Where the j-th sample of outer iteration i sits within a row. */
  lemma {:induction false} RowAt(size: real, step: real, i: nat, m: nat, j: nat, f: nat)
    requires j < m && f < 6
    ensures 6 * j + f < |Row(size, step, i, m)|
    ensures Row(size, step, i, m)[6 * j + f] == FacePoints(size, Coord(size, step, i), Coord(size, step, j))[f]
  {
    if j < m - 1 {
      RowAt(size, step, i, m - 1, j, f);
    }
  }

  /**
   * The emission order: the f-th of the six points for sample pair (i, j)
   * is at index 6 * (n * i + j) + f.
   */
  lemma {:induction false} GridAt(size: real, step: real, n: nat, k: nat, i: nat, j: nat, f: nat)
    requires i < k && j < n && f < 6
    ensures 6 * (n * i + j) + f < |Grid(size, step, n, k)|
    ensures Grid(size, step, n, k)[6 * (n * i + j) + f] == FacePoints(size, Coord(size, step, i), Coord(size, step, j))[f]
  {
    var prev := Grid(size, step, n, k - 1);
    var row := Row(size, step, k - 1, n);
    assert Grid(size, step, n, k) == prev + row;
    if i < k - 1 {
      GridAt(size, step, n, k - 1, i, j, f);
    } else {
      RowAt(size, step, i, n, j, f);
      RowOffset(n, i, j, f);
    }
  }

  /** The index of point f of sample pair (i, j): the 6 * n * i points of earlier rows come first. */
  lemma RowOffset(n: nat, i: nat, j: nat, f: nat)
    ensures 6 * (n * i + j) + f == 6 * n * i + (6 * j + f)
  {
  }

  /** Every sample coordinate of the first n iterations lies in [-size, size]. */
  lemma CoordInRange(size: real, step: real, n: nat, i: nat)
    requires step >= 0.0 && i < n && Coord(size, step, n - 1) <= size
    ensures -size <= Coord(size, step, i) <= size
  {
  }

  lemma {:induction false} RowOnCube(size: real, step: real, n: nat, i: nat, m: nat)
    requires step >= 0.0 && i < n && m <= n && Coord(size, step, n - 1) <= size
    ensures forall p :: p in Row(size, step, i, m) ==> OnCube(p, size)
  {
    if m > 0 {
      RowOnCube(size, step, n, i, m - 1);
      CoordInRange(size, step, n, i);
      CoordInRange(size, step, n, m - 1);
    }
  }

  lemma {:induction false} GridOnCube(size: real, step: real, n: nat, k: nat)
    requires step >= 0.0 && k <= n && (n == 0 || Coord(size, step, n - 1) <= size)
    ensures forall p :: p in Grid(size, step, n, k) ==> OnCube(p, size)
  {
    if k > 0 {
      GridOnCube(size, step, n, k - 1);
      RowOnCube(size, step, n, k - 1, n);
    }
  }

  /**
   * With as many samples as the exact loop visits, the cloud has 6 * n^2 points,
   * all on the cube's surface.
   */
  lemma CubePointsOnSurface(size: real, step: real)
    requires step > 0.0
    ensures |CubePoints(size, step, SampleCount(size, step))| == 6 * SampleCount(size, step) * SampleCount(size, step)
    ensures forall p :: p in CubePoints(size, step, SampleCount(size, step)) ==> OnCube(p, size)
  {
    var n := SampleCount(size, step);
    assert n == 0 || Coord(size, step, n - 1) <= size;
    GridOnCube(size, step, n, n);
  }

  /** The source's cube: half-extent 5 and step 0.3 give 34 samples per axis, 6936 points. */
  lemma SourceCloudSize()
    ensures SampleCount(5.0, 0.3) == 34
    ensures |CubePoints(5.0, 0.3, SampleCount(5.0, 0.3))| == 6936
  {
  }

  /**
   * The constructor's nested loops: x and y start at -size and advance by
   * `step`, each running `n` iterations; each (x, y) pushes six face points.
   */
  method GeneratePoints(size: real, step: real, n: nat) returns (points: seq<Vec3>)
    ensures points == CubePoints(size, step, n)
    ensures |points| == 6 * n * n
  {
    points := [];
    var i := 0;
    var x := -size;
    while i < n
      invariant 0 <= i <= n
      invariant x == Coord(size, step, i)
      invariant points == Grid(size, step, n, i)
    {
      var j := 0;
      var y := -size;
      while j < n
        invariant 0 <= j <= n
        invariant y == Coord(size, step, j)
        invariant points == Grid(size, step, n, i) + Row(size, step, i, j)
      {
        ghost var before := points;
        points := points + [Vec3(x, y, size)];
        points := points + [Vec3(x, y, -size)];
        points := points + [Vec3(x, size, y)];
        points := points + [Vec3(x, -size, y)];
        points := points + [Vec3(size, x, y)];
        points := points + [Vec3(-size, x, y)];
        assert points == before + FacePoints(size, x, y);
        CoordNext(size, step, j);
        j := j + 1;
        y := y + step;
      }
      CoordNext(size, step, i);
      i := i + 1;
      x := x + step;
    }
  }
}
