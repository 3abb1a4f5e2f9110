/** The fencing enemy's patrol around the home zone. The source stores the
    current handler (`down`, `right`, `up` or `left`) as a bound method; here it
    is the `phase` of the enemy's `Fencing` kind. Each handler first checks
    whether the enemy stands on its turning coordinate (home +- 40), switches
    the stored handler if so, and then moves 5 in its OWN direction. Because of
    that last move, the patrol's corners after the first lap are at home +- 45. */
module Fence {
  import opened Enemies

  /** The handler that follows `p` in the patrol. */
  function NextPhase(p: Phase): Phase
  {
    match p
    case Down => Right
    case Right => Up
    case Up => Left
    case Left => Down
  }

  /** Whether the enemy stands on the coordinate where its handler switches. */
  predicate AtTurn(e: Enemy)
    requires e.kind.Fencing?
  {
    match e.kind.phase
    case Down => e.y == e.kind.finishY + FenceRadius
    case Right => e.x == e.kind.finishX + FenceRadius
    case Up => e.y == e.kind.finishY - FenceRadius
    case Left => e.x == e.kind.finishX - FenceRadius
  }

  /** `FencingEnemy.update` without the collision check: run the stored handler. */
  function FenceStep(e: Enemy): (r: Enemy)
    requires e.kind.Fencing?
    ensures r.size == e.size && r.kind.Fencing?
    ensures r.kind.finishX == e.kind.finishX && r.kind.finishY == e.kind.finishY
    ensures (r.x == e.x && AbsInt(r.y - e.y) == FenceSpeed) ||
            (r.y == e.y && AbsInt(r.x - e.x) == FenceSpeed)
    ensures r.kind.phase == (if AtTurn(e) then NextPhase(e.kind.phase) else e.kind.phase)
  {
    var fx, fy := e.kind.finishX, e.kind.finishY;
    match e.kind.phase
    case Left =>
      var p := if e.x == fx - FenceRadius then Down else Left;
      e.(x := e.x - FenceSpeed, kind := e.kind.(phase := p))
    case Right =>
      var p := if e.x == fx + FenceRadius then Up else Right;
      e.(x := e.x + FenceSpeed, kind := e.kind.(phase := p))
    case Up =>
      var p := if e.y == fy - FenceRadius then Left else Up;
      e.(y := e.y - FenceSpeed, kind := e.kind.(phase := p))
    case Down =>
      var p := if e.y == fy + FenceRadius then Right else Down;
      e.(y := e.y + FenceSpeed, kind := e.kind.(phase := p))
  }

  /** The direction of each handler's move, as (dx, dy). */
  function Heading(p: Phase): (int, int)
  {
    match p
    case Down => (0, 1)
    case Right => (1, 0)
    case Up => (0, -1)
    case Left => (-1, 0)
  }

  /** On the tick its handler switches, the enemy still moves in the old
      direction. */
  lemma MovesInOldDirection(e: Enemy)
    requires e.kind.Fencing?
    ensures var r := FenceStep(e);
            var h := Heading(e.kind.phase);
            r.x == e.x + FenceSpeed * h.0 && r.y == e.y + FenceSpeed * h.1
  {
  }

  /** The four handler switches go round: four of them lead back to the start. */
  lemma PhaseCycle(p: Phase)
    ensures NextPhase(p) != p
    ensures NextPhase(NextPhase(NextPhase(NextPhase(p)))) == p
  {
  }

  /** A fencing enemy as `create` places it: home - 40 on both axes, handler `down`. */
  function FenceStart(size: int, homeX: int, homeY: int): Enemy
  {
    Enemy(homeX - FenceDistance, homeY - FenceDistance, size, Fencing(Down, homeX, homeY))
  }

  /** `n` updates of a fencing enemy. */
  function FenceRun(e: Enemy, n: nat): (r: Enemy)
    requires e.kind.Fencing?
    ensures r.kind.Fencing? && r.size == e.size
    ensures r.kind.finishX == e.kind.finishX && r.kind.finishY == e.kind.finishY
    decreases n
  {
    if n == 0 then e else FenceRun(FenceStep(e), n - 1)
  }

  /** Where a fencing enemy can be: offsets from home that are multiples of 5,
      on the side of the square its handler walks along. */
  predicate OnPatrol(e: Enemy)
    requires e.kind.Fencing?
  {
    var dx := e.x - e.kind.finishX;
    var dy := e.y - e.kind.finishY;
    dx % FenceSpeed == 0 && dy % FenceSpeed == 0 &&
    match e.kind.phase
    case Down => (dx == -40 || dx == -45) && -45 <= dy <= 40
    case Right => dy == 45 && -45 <= dx <= 40
    case Up => dx == 45 && -40 <= dy <= 45
    case Left => dy == -45 && -40 <= dx <= 45
  }

  /** OnPatrol, and not yet back on or before the starting corner of the first lap. */
  predicate PastStart(e: Enemy)
    requires e.kind.Fencing?
  {
    OnPatrol(e) &&
    !(e.kind.phase == Down && e.x - e.kind.finishX == -40 && e.y - e.kind.finishY <= -40)
  }

  /** Every reachable position is within home +- 45 on both axes. */
  lemma OnPatrolBounds(e: Enemy)
    requires e.kind.Fencing? && OnPatrol(e)
    ensures -45 <= e.x - e.kind.finishX <= 45 && -45 <= e.y - e.kind.finishY <= 45
    ensures (e.x - e.kind.finishX) % 5 == 0 && (e.y - e.kind.finishY) % 5 == 0
  {
  }

  lemma OnPatrolStep(e: Enemy)
    requires e.kind.Fencing? && OnPatrol(e)
    ensures OnPatrol(FenceStep(e))
  {
  }

  lemma PastStartStep(e: Enemy)
    requires e.kind.Fencing? && PastStart(e)
    ensures PastStart(FenceStep(e))
  {
    OnPatrolStep(e);
  }

  /** However many updates it takes, a fencing enemy stays on its patrol: at
      home offsets that are multiples of 5, never beyond +- 45. */
  lemma {:induction false} PatrolInvariant(size: int, homeX: int, homeY: int, n: nat)
    ensures OnPatrol(FenceRun(FenceStart(size, homeX, homeY), n))
    ensures var e := FenceRun(FenceStart(size, homeX, homeY), n);
            -45 <= e.x - homeX <= 45 && -45 <= e.y - homeY <= 45
  {
    var s := FenceStart(size, homeX, homeY);
    if n > 0 {
      PastStartRun(FenceStep(s), n - 1);
    }
    OnPatrolBounds(FenceRun(s, n));
  }

  lemma {:induction false} PastStartRun(e: Enemy, n: nat)
    requires e.kind.Fencing? && PastStart(e)
    ensures PastStart(FenceRun(e, n))
    decreases n
  {
    if n > 0 {
      PastStartStep(e);
      PastStartRun(FenceStep(e), n - 1);
    }
  }

  /** The starting corner is never visited again: the patrol does not return to
      its start. */
  lemma NeverBackToStart(size: int, homeX: int, homeY: int, n: nat)
    requires n >= 1
    ensures FenceRun(FenceStart(size, homeX, homeY), n) != FenceStart(size, homeX, homeY)
  {
    var s := FenceStart(size, homeX, homeY);
    PastStartRun(FenceStep(s), n - 1);
  }

  lemma {:induction false} RunAdd(e: Enemy, a: nat, b: nat)
    requires e.kind.Fencing?
    ensures FenceRun(e, a + b) == FenceRun(FenceRun(e, a), b)
    decreases a
  {
    if a > 0 {
      RunAdd(FenceStep(e), a - 1, b);
    }
  }

  /** A `down` leg: `k` moves to reach home + 40, one more to switch to `right`. */
  lemma {:induction false} DownLeg(e: Enemy, k: nat)
    requires e.kind.Fencing? && e.kind.phase == Down
    requires e.y == e.kind.finishY + FenceRadius - FenceSpeed * k
    ensures FenceRun(e, k + 1) == e.(y := e.kind.finishY + 45, kind := e.kind.(phase := Right))
    decreases k
  {
    if k > 0 {
      DownLeg(FenceStep(e), k - 1);
    }
  }

  lemma {:induction false} RightLeg(e: Enemy, k: nat)
    requires e.kind.Fencing? && e.kind.phase == Right
    requires e.x == e.kind.finishX + FenceRadius - FenceSpeed * k
    ensures FenceRun(e, k + 1) == e.(x := e.kind.finishX + 45, kind := e.kind.(phase := Up))
    decreases k
  {
    if k > 0 {
      RightLeg(FenceStep(e), k - 1);
    }
  }

  lemma {:induction false} UpLeg(e: Enemy, k: nat)
    requires e.kind.Fencing? && e.kind.phase == Up
    requires e.y == e.kind.finishY - FenceRadius + FenceSpeed * k
    ensures FenceRun(e, k + 1) == e.(y := e.kind.finishY - 45, kind := e.kind.(phase := Left))
    decreases k
  {
    if k > 0 {
      UpLeg(FenceStep(e), k - 1);
    }
  }

  lemma {:induction false} LeftLeg(e: Enemy, k: nat)
    requires e.kind.Fencing? && e.kind.phase == Left
    requires e.x == e.kind.finishX - FenceRadius + FenceSpeed * k
    ensures FenceRun(e, k + 1) == e.(x := e.kind.finishX - 45, kind := e.kind.(phase := Down))
    decreases k
  {
    if k > 0 {
      LeftLeg(FenceStep(e), k - 1);
    }
  }

  /** The corner the patrol settles on: home - 45 on both axes, handler `down`. */
  function FenceCorner(size: int, homeX: int, homeY: int): Enemy
  {
    Enemy(homeX - 45, homeY - 45, size, Fencing(Down, homeX, homeY))
  }

  /** The first lap takes 70 updates (17 + 17 + 18 + 18) and ends on the
      corner at home - 45, not on the starting corner at home - 40. */
  lemma FirstLap(size: int, homeX: int, homeY: int)
    ensures FenceRun(FenceStart(size, homeX, homeY), 70) == FenceCorner(size, homeX, homeY)
  {
    var e0 := FenceStart(size, homeX, homeY);
    DownLeg(e0, 16);
    var e1 := FenceRun(e0, 17);
    RightLeg(e1, 16);
    var e2 := FenceRun(e1, 17);
    UpLeg(e2, 17);
    var e3 := FenceRun(e2, 18);
    LeftLeg(e3, 17);
    RunAdd(e0, 17, 17);
    RunAdd(e0, 34, 18);
    RunAdd(e0, 52, 18);
  }

  /** From then on the patrol is periodic: 72 updates (18 per side) bring the
      enemy back to the corner at home - 45 with handler `down`. */
  lemma SteadyLap(size: int, homeX: int, homeY: int)
    ensures FenceRun(FenceCorner(size, homeX, homeY), 72) == FenceCorner(size, homeX, homeY)
  {
    var e0 := FenceCorner(size, homeX, homeY);
    DownLeg(e0, 17);
    var e1 := FenceRun(e0, 18);
    RightLeg(e1, 17);
    var e2 := FenceRun(e1, 18);
    UpLeg(e2, 17);
    var e3 := FenceRun(e2, 18);
    LeftLeg(e3, 17);
    RunAdd(e0, 18, 18);
    RunAdd(e0, 36, 18);
    RunAdd(e0, 54, 18);
  }
}
