/**
 * The engine: the static cloud, the two animation angles and the character
 * grid, with the per-frame render and the tick loop that drives it.
 */
module Engine {
  import opened Space
  import opened Projection
  import opened PointCloud
  import opened Compositor

  /** Half-extent of the cube and the sampling step of its faces. */
  const Size: real := 5.0
  const Step: real := 0.3

  /** Per-tick increments of the two rotation angles. */
  const AngleXStep: real := 0.03
  const AngleYStep: real := 0.02

  /** The key code that stops the loop. */
  const QuitKey: int := 'q' as int

  /** How many keys are polled before the first 'q': the number of ticks that run. */
  function TicksBeforeQuit(keys: seq<int>): (k: nat)
    ensures k <= |keys|
    ensures forall i :: 0 <= i < k ==> keys[i] != QuitKey
    ensures k < |keys| ==> keys[k] == QuitKey
  {
    if keys == [] || keys[0] == QuitKey then 0 else 1 + TicksBeforeQuit(keys[1..])
  }

  class Engine3D {
    /** Terminal size in cells, read once at start-up. */
    const width: nat
    const height: nat
    /** The point cloud, generated by the constructor and never changed afterwards. */
    const points: seq<Vec3>
    var angleX: real
    var angleY: real
    /** The terminal's character grid, indexed [row, column]. */
    const screen: array2<char>
    /** How many frames have been presented. */
    ghost var frames: nat

    ghost predicate Valid()
      reads this
    {
      screen.Length0 == height && screen.Length1 == width
    }

    /** The view the next frame is rendered with. */
    function CurrentView(num: Numerics): (v: View)
      reads this
      ensures v.angleX == angleX && v.angleY == angleY && v.num == num
      ensures v.width == width && v.height == height
    {
      View(angleX, angleY, num, width, height)
    }

    /**
     * Start-up on a `width` x `height` terminal: a blank screen, angles at
     * zero, and the cube's cloud generated with the loop's exact sample count.
     */
    constructor (width: nat, height: nat)
      ensures Valid() && fresh(screen)
      ensures this.width == width && this.height == height
      ensures points == CubePoints(Size, Step, SampleCount(Size, Step))
      ensures |points| == 6936
      ensures angleX == 0.0 && angleY == 0.0 && frames == 0
      ensures ShowsNearest(screen, [])
    {
      var cloud := GeneratePoints(Size, Step, SampleCount(Size, Step));
      SourceCloudSize();
      this.width := width;
      this.height := height;
      points := cloud;
      angleX, angleY := 0.0, 0.0;
      screen := new char[height, width]((y, x) => Blank);
      frames := 0;
    }

    /**
     * The first loop of a frame: every point rotated by the current angles and
     * projected, keeping those that are not the off-screen sentinel.
     */
    method ProjectVisible(num: Numerics) returns (projectedPoints: seq<Point2D>)
      ensures projectedPoints == Visible(points, CurrentView(num))
    {
      projectedPoints := [];
      for i := 0 to |points|
        invariant projectedPoints == Visible(points[..i], CurrentView(num))
      {
        var rotated := RotatePoint(points[i], angleX, angleY, num);
        var projected := Project(rotated, num.perspective(rotated.z), width, height);
        if projected.x != -1 {
          projectedPoints := projectedPoints + [projected];
        }
        assert points[..i + 1][..i] == points[..i];
      }
      assert points[..|points|] == points;
    }

    /**
     * The drawing loop of a frame, on a cleared grid: each point of `sorted`
     * in turn writes its glyph into its cell.
     */
    method Paint(sorted: seq<Point2D>)
      requires Valid()
      requires forall q :: q in sorted ==> OnScreen(q, width, height)
      requires DepthNonIncreasing(sorted)
      requires forall y, x :: 0 <= y < height && 0 <= x < width ==> screen[y, x] == Blank
      modifies screen
      ensures ShowsNearest(screen, sorted)
    {
      for i := 0 to |sorted|
        invariant forall y, x :: 0 <= y < height && 0 <= x < width ==> CellShows(sorted[..i], x, y, screen[y, x])
      {
        var p := sorted[i];
        assert p in sorted;
        assert sorted[..i + 1] == sorted[..i] + [p];
        assert DepthNonIncreasing(sorted[..i + 1]);
        label before:
        screen[p.y, p.x] := p.c;
        forall y, x | 0 <= y < height && 0 <= x < width
          ensures CellShows(sorted[..i + 1], x, y, screen[y, x])
        {
          CellShowsAfterDraw(sorted[..i], p, x, y, old@before(screen[y, x]), screen[y, x]);
        }
      }
      assert sorted[..|sorted|] == sorted;
    }

    /**
     * One frame: clear the grid, project every point for the current angles
     * keeping the ones on screen, sort them farthest first, and draw them in
     * that order so that nearer glyphs overwrite farther ones.
     */
    method Render(num: Numerics)
      requires Valid()
      modifies this`frames, screen
      ensures frames == old(frames) + 1
      ensures ShowsNearest(screen, Visible(points, CurrentView(num)))
    {
      forall y, x | 0 <= y < height && 0 <= x < width {
        screen[y, x] := Blank;
      }
      var projectedPoints := ProjectVisible(num);
      var sorted := SortByDepth(projectedPoints);
      forall q ensures q in sorted <==> q in projectedPoints {
        assert q in sorted <==> q in multiset(sorted);
      }
      Paint(sorted);
      forall y, x | 0 <= y < height && 0 <= x < width
        ensures CellShows(projectedPoints, x, y, screen[y, x])
      {
        CellShowsSameMembers(sorted, projectedPoints, x, y, screen[y, x]);
      }
      frames := frames + 1;
    }

    /**
     * The tick loop over the keys polled one per tick: stop at the first 'q';
     * otherwise advance both angles and render a frame. Returns the number of
     * ticks run and whether the loop stopped on 'q' (rather than running out of keys).
     */
    method Run(keys: seq<int>, num: Numerics) returns (ticks: nat, quit: bool)
      requires Valid()
      modifies this`angleX, this`angleY, this`frames, screen
      ensures ticks == TicksBeforeQuit(keys)
      ensures quit <==> ticks < |keys|
      ensures frames == old(frames) + ticks
      ensures angleX == old(angleX) + AngleXStep * ticks as real
      ensures angleY == old(angleY) + AngleYStep * ticks as real
      ensures ticks > 0 ==> ShowsNearest(screen, Visible(points, CurrentView(num)))
      ensures ticks == 0 ==> unchanged(screen)
    {
      ticks, quit := 0, false;
      while ticks < |keys|
        invariant ticks <= TicksBeforeQuit(keys)
        invariant frames == old(frames) + ticks
        invariant angleX == old(angleX) + AngleXStep * ticks as real
        invariant angleY == old(angleY) + AngleYStep * ticks as real
        invariant ticks > 0 ==> ShowsNearest(screen, Visible(points, CurrentView(num)))
        invariant ticks == 0 ==> unchanged(screen)
      {
        if keys[ticks] == QuitKey {
          quit := true;
          break;
        }
        angleX := angleX + AngleXStep;
        angleY := angleY + AngleYStep;
        Render(num);
        ticks := ticks + 1;
      }
    }
  }

  /**
   * The program: open an engine on a `width` x `height` terminal and run it on
   * the keys polled. After k ticks the angles are (0.03 k, 0.02 k) and exactly
   * k frames have been drawn.
   */
  method Launch(width: nat, height: nat, keys: seq<int>, num: Numerics) returns (engine: Engine3D, ticks: nat)
    ensures ticks == TicksBeforeQuit(keys)
    ensures engine.frames == ticks
    ensures engine.angleX == AngleXStep * ticks as real && engine.angleY == AngleYStep * ticks as real
  {
    engine := new Engine3D(width, height);
    var quit;
    ticks, quit := engine.Run(keys, num);
  }
}
