/**
 * One frame: the points that project on screen, their far-to-near order, and
 * what the painter's algorithm leaves in each cell of the grid.
 */
module Compositor {
  import opened Space
  import opened Shading
  import opened Projection

  /** Everything a frame depends on besides the geometry: the angles, the numerics and the grid size. */
  datatype View = View(angleX: real, angleY: real, num: Numerics, width: nat, height: nat)

  /** A geometry point rotated by the view's angles and projected onto its grid. */
  function ProjectPoint(p: Vec3, v: View): Point2D
  {
    var r := RotatePoint(p, v.angleX, v.angleY, v.num);
    Project(r, v.num.perspective(r.z), v.width, v.height)
  }

  /**
   * The projections of `ps` that are not the sentinel, in geometry order: at most
   * one per point, each on screen and shaded for its own depth.
   */
  function Visible(ps: seq<Vec3>, v: View): (s: seq<Point2D>)
    ensures |s| <= |ps|
    ensures forall q :: q in s ==> OnScreen(q, v.width, v.height) && q.depth >= 0.0 && q.c == GetLineChar(q.depth)
  {
    if ps == [] then []
    else
      var q := ProjectPoint(ps[|ps| - 1], v);
      Visible(ps[..|ps| - 1], v) + (if q.x != -1 then [q] else [])
  }

  /** Every geometry point's projection, sentinel or not, in geometry order. */
  function Projections(ps: seq<Vec3>, v: View): (s: seq<Point2D>)
    ensures |s| == |ps|
    ensures forall i :: 0 <= i < |ps| ==> s[i] == ProjectPoint(ps[i], v)
  {
    if ps == [] then [] else Projections(ps[..|ps| - 1], v) + [ProjectPoint(ps[|ps| - 1], v)]
  }

  /**
   * The kept projections are exactly the non-sentinel projections, each with
   * its multiplicity: one per geometry point that lands on screen.
   */
  lemma {:induction false} VisibleCounts(ps: seq<Vec3>, v: View)
    ensures multiset(Visible(ps, v)) == multiset(Projections(ps, v))[Sentinel := 0]
  {
    if ps != [] {
      var init := ps[..|ps| - 1];
      var q := ProjectPoint(ps[|ps| - 1], v);
      VisibleCounts(init, v);
      assert Projections(ps, v) == Projections(init, v) + [q];
      assert q.x == -1 <==> q == Sentinel;
    }
  }

  /** A projected point is visible exactly when some geometry point projects to it on screen. */
  lemma {:induction false} VisibleMembers(ps: seq<Vec3>, v: View, q: Point2D)
    ensures q in Visible(ps, v) <==> q != Sentinel && exists i :: 0 <= i < |ps| && ProjectPoint(ps[i], v) == q
  {
    if ps != [] {
      var init := ps[..|ps| - 1];
      VisibleMembers(init, v, q);
      if q != Sentinel && exists i :: 0 <= i < |ps| && ProjectPoint(ps[i], v) == q {
        var i :| 0 <= i < |ps| && ProjectPoint(ps[i], v) == q;
        if i < |ps| - 1 {
          assert init[i] == ps[i];
        }
      }
      if q != Sentinel && exists i :: 0 <= i < |init| && ProjectPoint(init[i], v) == q {
        var i :| 0 <= i < |init| && ProjectPoint(init[i], v) == q;
        assert ps[i] == init[i];
      }
    }
  }

  /** Depths never increase along `s`: the farthest point comes first. */
  ghost predicate DepthNonIncreasing(s: seq<Point2D>)
  {
    forall i, j :: 0 <= i < j < |s| ==> s[i].depth >= s[j].depth
  }

  /** Insertion of `p` into a far-to-near sequence, after every point at least as far. */
  method InsertByDepth(sorted: seq<Point2D>, p: Point2D) returns (r: seq<Point2D>)
    requires DepthNonIncreasing(sorted)
    ensures DepthNonIncreasing(r)
    ensures multiset(r) == multiset(sorted) + multiset{p}
  {
    var k := 0;
    while k < |sorted| && sorted[k].depth >= p.depth
      invariant 0 <= k <= |sorted|
      invariant forall j :: 0 <= j < k ==> sorted[j].depth >= p.depth
    {
      k := k + 1;
    }
    r := sorted[..k] + [p] + sorted[k..];
    InsertKeepsOrder(sorted, p, k);
    assert sorted == sorted[..k] + sorted[k..];
  }

  /**
   * Placing `p` after every point at least as far and before the first
   * strictly nearer one keeps a far-to-near sequence far-to-near.
   */
  lemma InsertKeepsOrder(sorted: seq<Point2D>, p: Point2D, k: nat)
    requires DepthNonIncreasing(sorted)
    requires k <= |sorted|
    requires forall j :: 0 <= j < k ==> sorted[j].depth >= p.depth
    requires k < |sorted| ==> sorted[k].depth < p.depth
    ensures DepthNonIncreasing(sorted[..k] + [p] + sorted[k..])
  {
    var r := sorted[..k] + [p] + sorted[k..];
    forall i, j | 0 <= i < j < |r| ensures r[i].depth >= r[j].depth {
      if j < k {
        assert r[i] == sorted[i] && r[j] == sorted[j];
      } else if j == k {
        assert r[i] == sorted[i] && r[j] == p;
      } else if i < k {
        assert r[i] == sorted[i] && r[j] == sorted[j - 1];
      } else if i == k {
        assert r[i] == p && r[j] == sorted[j - 1];
        assert sorted[k].depth >= sorted[j - 1].depth;
      } else {
        assert r[i] == sorted[i - 1] && r[j] == sorted[j - 1];
      }
    }
  }

  /**
   * The contract of the frame's `std::sort` with a `depth >` comparator: a
   * permutation of the input, farthest first. Ties may come out in any order.
   */
  method SortByDepth(s: seq<Point2D>) returns (sorted: seq<Point2D>)
    ensures multiset(sorted) == multiset(s)
    ensures DepthNonIncreasing(sorted)
  {
    sorted := [];
    for i := 0 to |s|
      invariant multiset(sorted) == multiset(s[..i])
      invariant DepthNonIncreasing(sorted)
    {
      sorted := InsertByDepth(sorted, s[i]);
      assert s[..i + 1] == s[..i] + [s[i]];
    }
    assert s[..|s|] == s;
  }

  /** The glyph of an empty cell after the screen is cleared. */
  const Blank: char := ' '

  predicate Hits(q: Point2D, x: int, y: int)
  {
    q.x == x && q.y == y
  }

  /** Some point of `s` lands on cell (x, y). */
  ghost predicate Covered(s: seq<Point2D>, x: int, y: int)
  {
    exists q :: q in s && Hits(q, x, y)
  }

  /** `g` is the glyph of a point of `s` on (x, y) whose depth is minimal among the points there. */
  ghost predicate NearestGlyph(s: seq<Point2D>, x: int, y: int, g: char)
  {
    exists q :: q in s && Hits(q, x, y) && q.c == g &&
      forall r :: r in s && Hits(r, x, y) ==> q.depth <= r.depth
  }

  /** What the painter's algorithm leaves in cell (x, y) after drawing `s`. */
  ghost predicate CellShows(s: seq<Point2D>, x: int, y: int, g: char)
  {
    if Covered(s, x, y) then NearestGlyph(s, x, y, g) else g == Blank
  }

  /** Every cell of the grid shows a nearest point landing on it, or is blank. */
  ghost predicate ShowsNearest(screen: array2<char>, s: seq<Point2D>)
    reads screen
  {
    forall y, x :: 0 <= y < screen.Length0 && 0 <= x < screen.Length1 ==> CellShows(s, x, y, screen[y, x])
  }

  /** Only which points are drawn matters for the outcome, not their order. */
  lemma CellShowsSameMembers(a: seq<Point2D>, b: seq<Point2D>, x: int, y: int, g: char)
    requires forall q :: q in a <==> q in b
    ensures CellShows(a, x, y, g) <==> CellShows(b, x, y, g)
  {
  }

  /** Drawing a point elsewhere leaves what a cell shows unchanged. */
  lemma CellShowsOther(s: seq<Point2D>, p: Point2D, x: int, y: int, g: char)
    requires !Hits(p, x, y)
    ensures CellShows(s + [p], x, y, g) <==> CellShows(s, x, y, g)
  {
  }

  /** A point no farther than anything drawn before it wins its cell. */
  lemma CellShowsLast(s: seq<Point2D>, p: Point2D)
    requires forall r :: r in s ==> p.depth <= r.depth
    ensures CellShows(s + [p], p.x, p.y, p.c)
  {
    assert p in s + [p];
  }

  /**
   * Drawing `p` after `s`, when nothing in `s` is nearer than `p`: the cell `p`
   * lands on shows `p`'s glyph, and every other cell keeps what it showed.
   */
  lemma CellShowsAfterDraw(s: seq<Point2D>, p: Point2D, x: int, y: int, before: char, after: char)
    requires DepthNonIncreasing(s + [p])
    requires CellShows(s, x, y, before)
    requires after == if Hits(p, x, y) then p.c else before
    ensures CellShows(s + [p], x, y, after)
  {
    if Hits(p, x, y) {
      forall r | r in s ensures p.depth <= r.depth {
        var j :| 0 <= j < |s| && s[j] == r;
        assert (s + [p])[j] == r && (s + [p])[|s|] == p;
      }
      CellShowsLast(s, p);
    } else {
      CellShowsOther(s, p, x, y, before);
    }
  }

  /** When one point on a cell is strictly nearer than all others there, the cell shows its glyph. */
  lemma NearestWins(s: seq<Point2D>, q: Point2D, g: char)
    requires CellShows(s, q.x, q.y, g)
    requires q in s
    requires forall r :: r in s && Hits(r, q.x, q.y) && r != q ==> q.depth < r.depth
    ensures g == q.c
  {
  }

  /** Two points on one cell at depths 5 and 20: the cell shows the glyph of the one at depth 5. */
  lemma NearerOverwritesFarther(x: int, y: int, g: char)
    requires CellShows([Point2D(x, y, GetLineChar(20.0), 20.0), Point2D(x, y, GetLineChar(5.0), 5.0)], x, y, g)
    ensures g == GetLineChar(5.0)
  {
    var near := Point2D(x, y, GetLineChar(5.0), 5.0);
    NearestWins([Point2D(x, y, GetLineChar(20.0), 20.0), near], near, g);
  }
}
