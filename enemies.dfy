/** The enemies of the game as records, and the movement rule of each kind as a
    pure step function. The game keeps its enemies in a sequence of these
    records and replaces a record when the enemy's `update` changes it
    (see module Game). */
module Enemies {
  import opened Geometry

  /** The four handlers a fencing enemy stores as its state; the source keeps a
      bound method, the model its name. */
  datatype Phase = Down | Right | Up | Left

  /** `x_state` of a drunk-bouncy enemy: `left_state` or `right_state`. */
  datatype XDir = GoLeft | GoRight

  /** `y_state` of a drunk-bouncy enemy: `up_state` or `down_state`. */
  datatype YDir = GoUp | GoDown

  /** The state that differs between enemy kinds. */
  datatype Kind =
    | Demo
      /** Its private waypoint, which is always active. */
    | RandomWalk(waypointX: int, waypointY: int)
    | Chasing
      /** The current handler and the home centre it patrols around. */
    | Fencing(phase: Phase, finishX: int, finishY: int)
    | DrunkBouncy(xState: XDir, yState: YDir)

  /** One enemy: its centre, the side of its box, and its kind's state. */
  datatype Enemy = Enemy(x: int, y: int, size: int, kind: Kind)
  {
    predicate Hits(px: real, py: real)
    {
      HitsPlayer(x, y, size, px, py)
    }
  }

  /** Fixed speeds of the source (`self.speed`). */
  const BouncySpeed := 3
  const FenceSpeed := 5
  /** `distance_x`/`distance_y` (start offset) and `rad_x`/`rad_y` (turning offset). */
  const FenceDistance := 40
  const FenceRadius := 40
  /** Chasing enemies run at 5 per axis when farther than 80 on that axis, else at 2. */
  const ChaseFar := 80
  const ChaseFastSpeed := 5
  const ChaseSlowSpeed := 2
  /** Children of a bouncy split are size 10; generated random walkers 20, 30 or 40. */
  const DupeSize := 10
  const WalkerSizes: seq<int> := [20, 30, 40]

  // ---------------------------------------------------------------------
  // DemoEnemy

  /** `DemoEnemy.update`: one step down and to the right. */
  function DemoStep(e: Enemy): Enemy
  {
    e.(x := e.x + 1, y := e.y + 1)
  }

  /** `n` updates of a demo enemy. */
  function DemoRun(e: Enemy, n: nat): Enemy
    decreases n
  {
    if n == 0 then e else DemoRun(DemoStep(e), n - 1)
  }

  /** A demo enemy drifts along the diagonal: after `n` updates it is `n`
      further right and `n` further down, and nothing else about it changed. */
  lemma {:induction false} DemoDrifts(e: Enemy, n: nat)
    ensures DemoRun(e, n) == e.(x := e.x + n, y := e.y + n)
    decreases n
  {
    if n > 0 {
      DemoDrifts(DemoStep(e), n - 1);
    }
  }

  // ---------------------------------------------------------------------
  // RandomWalkEnemy

  /** One axis of `RandomWalkEnemy.update`: a unit step toward the target. */
  function WalkAxis(pos: int, target: int): (r: int)
    ensures pos == target ==> r == pos
    ensures pos != target ==> (r - pos == 1 || pos - r == 1)
    ensures pos <= r <= target || target <= r <= pos
  {
    if pos < target then pos + 1 else if pos > target then pos - 1 else pos
  }

  /** `RandomWalkEnemy.update`: move one unit per axis toward the waypoint;
      when both coordinates then equal the waypoint's, the waypoint is
      regenerated from the oracle's draw `redraw`. */
  function WalkStep(e: Enemy, redraw: (int, int)): (r: Enemy)
    requires e.kind.RandomWalk?
  {
    var x := WalkAxis(e.x, e.kind.waypointX);
    var y := WalkAxis(e.y, e.kind.waypointY);
    if x == e.kind.waypointX && y == e.kind.waypointY
    then Enemy(x, y, e.size, RandomWalk(redraw.0, redraw.1))
    else Enemy(x, y, e.size, e.kind)
  }

  /** Each axis distance to the waypoint shrinks by exactly one unless it is
      already zero; the walker never overshoots. */
  lemma WalkApproaches(pos: int, target: int)
    ensures var r := WalkAxis(pos, target);
            if pos == target then r == target
            else (target - r) * (target - pos) > 0 || r == target
    ensures var r := WalkAxis(pos, target);
            pos != target ==> AbsInt(target - r) == AbsInt(target - pos) - 1
  {
  }

  function AbsInt(n: int): (a: int)
    ensures a >= 0 && (a == n || a == -n)
  {
    if n < 0 then -n else n
  }

  /** A walker keeps its waypoint until it stands on it; then the new waypoint
      is the oracle's draw, which may equal the old one. */
  lemma WalkWaypoint(e: Enemy, redraw: (int, int))
    requires e.kind.RandomWalk?
    ensures var r := WalkStep(e, redraw);
            var arrived := r.x == e.kind.waypointX && r.y == e.kind.waypointY;
            r.kind.RandomWalk? && r.size == e.size &&
            (arrived ==> r.kind == RandomWalk(redraw.0, redraw.1)) &&
            (!arrived ==> r.kind == e.kind)
  {
  }

  /** A walker that is `n` steps (in the larger axis distance) from its
      waypoint arrives after exactly `n` steps, whatever the redraws. */
  lemma {:induction false} WalkArrives(e: Enemy, redraw: (int, int), n: nat)
    requires e.kind.RandomWalk?
    requires n == Max(AbsInt(e.kind.waypointX - e.x), AbsInt(e.kind.waypointY - e.y))
    requires n > 0
    ensures WalkRun(e, redraw, n).x == e.kind.waypointX
    ensures WalkRun(e, redraw, n).y == e.kind.waypointY
    ensures forall k :: 0 < k < n ==> WalkRun(e, redraw, k).kind == e.kind
    decreases n
  {
    var r := WalkStep(e, redraw);
    var x := WalkAxis(e.x, e.kind.waypointX);
    var y := WalkAxis(e.y, e.kind.waypointY);
    WalkApproaches(e.x, e.kind.waypointX);
    WalkApproaches(e.y, e.kind.waypointY);
    if n == 1 {
      assert x == e.kind.waypointX && y == e.kind.waypointY;
    } else {
      assert !(x == e.kind.waypointX && y == e.kind.waypointY);
      assert r == Enemy(x, y, e.size, e.kind);
      WalkArrives(r, redraw, n - 1);
      forall k | 0 < k < n ensures WalkRun(e, redraw, k).kind == e.kind {
        if k > 1 {
          assert WalkRun(e, redraw, k) == WalkRun(r, redraw, k - 1);
        }
      }
    }
  }

  function Max(a: int, b: int): int { if a < b then b else a }

  /** `n` successive walker steps, all with the same redraw. */
  function WalkRun(e: Enemy, redraw: (int, int), n: nat): (r: Enemy)
    requires e.kind.RandomWalk?
    ensures r.kind.RandomWalk?
    decreases n
  {
    if n == 0 then e else WalkRun(WalkStep(e, redraw), redraw, n - 1)
  }

  // ---------------------------------------------------------------------
  // ChasingEnemy

  /** The per-axis speed of a chasing enemy. */
  function ChaseSpeed(pos: int, target: real): int
  {
    if Abs(target - pos as real) > ChaseFar as real then ChaseFastSpeed else ChaseSlowSpeed
  }

  /** One axis of `ChasingEnemy.update`: a step of the axis speed toward the
      player, or none when level with it. */
  function ChaseAxis(pos: int, target: real): (r: int)
  {
    var s := ChaseSpeed(pos, target);
    if target > pos as real then pos + s
    else if target < pos as real then pos - s
    else pos
  }

  /** `ChasingEnemy.update`: chase the player on both axes independently. */
  function ChaseStep(e: Enemy, px: real, py: real): (r: Enemy)
    requires e.kind.Chasing?
    ensures r.kind == e.kind && r.size == e.size
  {
    e.(x := ChaseAxis(e.x, px), y := ChaseAxis(e.y, py))
  }

  /** The chaser always moves toward the player by its axis speed; the new gap
      is the difference of the old gap and the step, so it ends on the far
      side whenever the gap was smaller than the step. */
  lemma ChaseMeaning(pos: int, target: real)
    ensures var r := ChaseAxis(pos, target);
            var s := ChaseSpeed(pos, target);
            var gap := Abs(target - pos as real);
            (target == pos as real ==> r == pos) &&
            (target > pos as real ==> r == pos + s) &&
            (target < pos as real ==> r == pos - s) &&
            (target != pos as real ==> Abs(target - r as real) == Abs(gap - s as real))
  {
    var s := ChaseSpeed(pos, target);
    if target > pos as real {
      assert target - (pos + s) as real == (target - pos as real) - s as real;
    } else if target < pos as real {
      assert target - (pos - s) as real == -((pos as real - target) - s as real);
    }
  }

  /** The step is not clamped: a gap of 1 is overshot, leaving a gap of 1 on the
      other side. */
  lemma ChaseOvershoots(pos: int)
    ensures ChaseAxis(pos, pos as real + 1.0) == pos + 2
    ensures ChaseAxis(pos, pos as real - 1.0) == pos - 2
  {
  }

  /** What one chasing step does to the gap on its axis. Farther than 80 the
      gap shrinks by 5 and the chaser stays on the same side; within 80 the new
      gap is the old gap less 2, taken absolutely, so a gap below 2 is
      overshot; level with the player it does not move. */
  lemma ChaseGap(pos: int, target: real)
    ensures var r := ChaseAxis(pos, target);
            var gap := Abs(target - pos as real);
            (gap > 80.0 ==> Abs(target - r as real) == gap - 5.0 &&
                            (target > pos as real <==> target > r as real)) &&
            (0.0 < gap <= 80.0 ==> Abs(target - r as real) == Abs(gap - 2.0)) &&
            (gap == 0.0 ==> r == pos)
  {
    var r := ChaseAxis(pos, target);
    if target > pos as real {
      assert target - r as real == (target - pos as real) - ChaseSpeed(pos, target) as real;
    } else if target < pos as real {
      assert target - r as real == -((pos as real - target) - ChaseSpeed(pos, target) as real);
    }
  }

  // ---------------------------------------------------------------------
  // DrunkBouncyEnemy

  /** The x coordinate after `left_state`/`right_state` moves. */
  function XMove(x: int, d: XDir): int
  {
    if d == GoLeft then x - BouncySpeed else x + BouncySpeed
  }

  function YMove(y: int, d: YDir): int
  {
    if d == GoUp then y - BouncySpeed else y + BouncySpeed
  }

  /** The split test of the handler just run: moving left it splits at x <= 0,
      moving right at x >= width; likewise for y. */
  predicate XSplits(x: int, d: XDir, width: int)
  {
    if d == GoLeft then x <= 0 else x >= width
  }

  predicate YSplits(y: int, d: YDir, height: int)
  {
    if d == GoUp then y <= 0 else y >= height
  }

  function ReverseX(d: XDir): XDir { if d == GoLeft then GoRight else GoLeft }

  function ReverseY(d: YDir): YDir { if d == GoUp then GoDown else GoUp }

  /** The two `create_dupe` calls of a split on the x axis: reversed x
      direction, up then down. */
  function XSplitDirs(d: XDir): (r: seq<(XDir, YDir)>)
    ensures |r| == 2 && r[0].0 == r[1].0 == ReverseX(d)
    ensures r[0].1 == GoUp && r[1].1 == GoDown
  {
    if d == GoLeft then [(GoRight, GoUp), (GoRight, GoDown)]
    else [(GoLeft, GoUp), (GoLeft, GoDown)]
  }

  /** The two `create_dupe` calls of a split on the y axis: left then right,
      reversed y direction. */
  function YSplitDirs(d: YDir): (r: seq<(XDir, YDir)>)
    ensures |r| == 2 && r[0].1 == r[1].1 == ReverseY(d)
    ensures r[0].0 == GoLeft && r[1].0 == GoRight
  {
    if d == GoUp then [(GoLeft, GoDown), (GoRight, GoDown)]
    else [(GoLeft, GoUp), (GoRight, GoUp)]
  }

  /** Where `create_dupe` puts a child of a parent at (x, y): the first test of
      the chain that holds decides. When none holds the child keeps a fresh
      element's position (0, 0); a split never gets there (DupeNotAtOrigin). */
  function DupePlace(x: int, y: int, width: int, height: int): (int, int)
  {
    if x <= 0 then (1, y)
    else if x >= width then (width - 1, y)
    else if y <= 0 then (x, 1)
    else if y >= height then (x, height - 1)
    else (0, 0)
  }

  /** The children `create_dupe` adds for a parent at (x, y), one per
      direction pair, in order. */
  function Dupes(x: int, y: int, width: int, height: int, dirs: seq<(XDir, YDir)>): seq<Enemy>
  {
    var p := DupePlace(x, y, width, height);
    seq(|dirs|, k requires 0 <= k < |dirs| => Enemy(p.0, p.1, DupeSize, DrunkBouncy(dirs[k].0, dirs[k].1)))
  }

  /** What one `DrunkBouncyEnemy.update` does to its instance and the game:
      the instance's final position, whether it deleted itself, and the
      children it added in order. */
  datatype Bounce = Bounce(self: Enemy, split: bool, children: seq<Enemy>)

  /** `DrunkBouncyEnemy.update`: `x_state` then `y_state`. The second handler
      runs even when the first has split and deleted the instance, and its
      children are placed by the same `create_dupe` chain, which tests x first. */
  function BounceStep(e: Enemy, width: int, height: int): (b: Bounce)
    requires e.kind.DrunkBouncy?
    ensures b.self.size == e.size && b.self.kind == e.kind
    ensures b.split <==> |b.children| > 0
  {
    var x := XMove(e.x, e.kind.xState);
    var xKids := if XSplits(x, e.kind.xState, width)
                 then Dupes(x, e.y, width, height, XSplitDirs(e.kind.xState)) else [];
    var y := YMove(e.y, e.kind.yState);
    var yKids := if YSplits(y, e.kind.yState, height)
                 then Dupes(x, y, width, height, YSplitDirs(e.kind.yState)) else [];
    Bounce(e.(x := x, y := y), |xKids| + |yKids| > 0, xKids + yKids)
  }

  /** The instance moves 3 on each axis along its directions. */
  lemma BounceMoves(e: Enemy, width: int, height: int)
    requires e.kind.DrunkBouncy?
    ensures var b := BounceStep(e, width, height);
            AbsInt(b.self.x - e.x) == 3 && AbsInt(b.self.y - e.y) == 3 &&
            (e.kind.xState == GoLeft <==> b.self.x < e.x) &&
            (e.kind.yState == GoUp <==> b.self.y < e.y)
  {
  }

  /** A step that crosses only the x edge yields exactly two size-10 children,
      both with the reversed x direction, one going up and one going down, both
      one unit inside the crossed edge at the parent's height. */
  lemma BounceSplitX(e: Enemy, width: int, height: int)
    requires e.kind.DrunkBouncy? && width >= 1
    requires XSplits(XMove(e.x, e.kind.xState), e.kind.xState, width)
    requires !YSplits(YMove(e.y, e.kind.yState), e.kind.yState, height)
    ensures var b := BounceStep(e, width, height);
            var d := e.kind.xState;
            b.split && |b.children| == 2 &&
            b.children[0] == Enemy(if d == GoLeft then 1 else width - 1, e.y, 10, DrunkBouncy(ReverseX(d), GoUp)) &&
            b.children[1] == Enemy(if d == GoLeft then 1 else width - 1, e.y, 10, DrunkBouncy(ReverseX(d), GoDown))
  {
  }

  /** A step that crosses only the y edge yields exactly two size-10 children,
      both with the reversed y direction, one going left and one going right,
      one unit inside the crossed edge at the parent's new x. */
  lemma BounceSplitY(e: Enemy, width: int, height: int)
    requires e.kind.DrunkBouncy? && height >= 1
    requires 0 < XMove(e.x, e.kind.xState) < width
    requires YSplits(YMove(e.y, e.kind.yState), e.kind.yState, height)
    ensures var b := BounceStep(e, width, height);
            var d := e.kind.yState;
            var x := XMove(e.x, e.kind.xState);
            b.split && |b.children| == 2 &&
            b.children[0] == Enemy(x, if d == GoUp then 1 else height - 1, 10, DrunkBouncy(GoLeft, ReverseY(d))) &&
            b.children[1] == Enemy(x, if d == GoUp then 1 else height - 1, 10, DrunkBouncy(GoRight, ReverseY(d)))
  {
  }

  /** Crossing a corner splits twice: four children. The first pair, from
      `x_state`, sits one unit inside the x edge at the old y, with the
      reversed x direction, going up then down. The second pair, from
      `y_state` on the deleted instance, is also placed by the x test of the
      chain, one unit inside the x edge (not the y edge) at the new y, going
      left then right with the reversed y direction. */
  lemma BounceSplitCorner(e: Enemy, width: int, height: int)
    requires e.kind.DrunkBouncy? && width >= 1
    requires XSplits(XMove(e.x, e.kind.xState), e.kind.xState, width)
    requires YSplits(YMove(e.y, e.kind.yState), e.kind.yState, height)
    ensures var b := BounceStep(e, width, height);
            var cx := if e.kind.xState == GoLeft then 1 else width - 1;
            var y := YMove(e.y, e.kind.yState);
            var rx := ReverseX(e.kind.xState);
            var ry := ReverseY(e.kind.yState);
            b.split &&
            b.children == [Enemy(cx, e.y, DupeSize, DrunkBouncy(rx, GoUp)),
                           Enemy(cx, e.y, DupeSize, DrunkBouncy(rx, GoDown)),
                           Enemy(cx, y, DupeSize, DrunkBouncy(GoLeft, ry)),
                           Enemy(cx, y, DupeSize, DrunkBouncy(GoRight, ry))]
  {
  }

  /** No crossing, no split: the instance just moves. */
  lemma BounceNoSplit(e: Enemy, width: int, height: int)
    requires e.kind.DrunkBouncy?
    requires !XSplits(XMove(e.x, e.kind.xState), e.kind.xState, width)
    requires !YSplits(YMove(e.y, e.kind.yState), e.kind.yState, height)
    ensures !BounceStep(e, width, height).split
  {
  }

  /** A child lands one unit inside the edge the parent has crossed, testing
      the left, right, top and bottom edges in that order; the coordinate
      along that edge is the parent's. */
  lemma DupeInsideCrossedEdge(x: int, y: int, width: int, height: int)
    requires width >= 2 && height >= 2
    ensures var p := DupePlace(x, y, width, height);
            (x <= 0 ==> p == (1, y)) &&
            (0 < x && x >= width ==> p == (width - 1, y)) &&
            (0 < x < width && y <= 0 ==> p == (x, 1)) &&
            (0 < x < width && 0 < y && y >= height ==> p == (x, height - 1))
    ensures var p := DupePlace(x, y, width, height);
            (x <= 0 || x >= width ==> 0 < p.0 < width && p.1 == y) &&
            (0 < x < width && (y <= 0 || y >= height) ==> p.0 == x && 0 < p.1 < height)
  {
  }

  /** After any split, every child lies off the origin on a canvas of at least
      2 x 2, so adding it never triggers a random re-spawn. */
  lemma DupeNotAtOrigin(x: int, y: int, width: int, height: int)
    requires width >= 2 && height >= 2
    requires x <= 0 || x >= width || y <= 0 || y >= height
    ensures DupePlace(x, y, width, height) != (0, 0)
  {
  }

  /** The children of one update: those of a split are never at the origin. */
  lemma BounceChildrenOffOrigin(e: Enemy, width: int, height: int)
    requires e.kind.DrunkBouncy? && width >= 2 && height >= 2
    ensures var b := BounceStep(e, width, height);
            forall k :: 0 <= k < |b.children| ==>
              ((b.children[k].x, b.children[k].y) != (0, 0) &&
               b.children[k].size == DupeSize && b.children[k].kind.DrunkBouncy?)
  {
    var x := XMove(e.x, e.kind.xState);
    var y := YMove(e.y, e.kind.yState);
    if XSplits(x, e.kind.xState, width) {
      DupeNotAtOrigin(x, e.y, width, height);
    }
    if YSplits(y, e.kind.yState, height) {
      DupeNotAtOrigin(x, y, width, height);
    }
  }
}
