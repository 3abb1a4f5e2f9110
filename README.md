# Turtle's Adventure, modelled in Dafny

Turtle's Adventure is a small tkinter game. The player steers a turtle
toward the mouse click, the waypoint, and tries to reach the home square
before an enemy box covers it. This project models the game logic in
`turtle_adventure.py`:

- the waypoint, the home zone and the player's update with its win check;
- the collision test shared by all enemies;
- the five enemy kinds:
  - the demo enemy;
  - the random-walk enemy, with its `random_spawn` and `generate_waypoint`;
  - the chasing enemy;
  - the fencing enemy, whose `left`, `right`, `up` and `down` handlers
    patrol the home;
  - the drunk-bouncy enemy, whose `*_state` handlers split it into children
    through `create_dupe`;
- the enemy generator and its `create_*` methods;
- `game_over_win` and `game_over_lose`;
- the game's collection of enemies.

Files:

- `geometry.dfy` (module `Geometry`): `Home.contains` and `hits_player`.
  Both are stated over the reals, because `size / 2` is true division.
- `spawn.dfy` (module `Spawn`): `random_spawn`, as a rejection loop over a
  sequence of draws handed in by the caller.
- `enemies.dfy` (module `Enemies`): the `Enemy` record. Its `Kind` holds
  what each enemy kind stores: the walker's waypoint, the fencing handler
  and the home it patrols, the bouncy enemy's two handlers. The module also
  holds the movement of each kind as a pure step function, with lemmas.
- `fencing.dfy` (module `Fence`): the fencing patrol and its long-run
  behaviour.
- `game.dfy` (module `Game`):
  - the classes `Waypoint`, `Player`, `TurtleAdventureGame` and
    `EnemyGenerator`;
  - the game holds its enemies in a `seq<Enemy>` that the update methods
    reassign;
  - each `Update*` method is proved against the step function of its kind;
  - the generator's methods are proved against `NewWalker`, `NewChaser`,
    `NewBouncy` and `FenceStart`;
  - `game.after` calls are recorded as a sequence of `Timer`s.

Randomness is an oracle. Every `random.randint` or `random.choice` result
the source would draw is an input: a `Draw`, a `SizeChoice`, or a
direction of `XDir` or `YDir`. The turtle's trigonometry is an input too:
`Player.Update` receives the position that `setheading` and `forward` lead
to.

Where the code differs from the game's intended behaviour, the model
follows the code:

- The fencing enemy does not return to its starting corner.
  - Every handler first switches the stored handler and then still moves
    5 in its own direction.
  - The first lap therefore takes 70 updates. It ends at home - 45 on both
    axes, not at the start, home - 40 (`Fence.FirstLap`).
  - From then on the patrol repeats every 72 updates
    (`Fence.SteadyLap`).
  - The start is never visited again (`Fence.NeverBackToStart`).
- The spawn exclusion zone is not a box around the player.
  - A draw is rejected when it is within 100 of the player on the x axis
    OR on the y axis.
  - An accepted position is therefore at least 100 away on both axes
    (`Spawn.AcceptedIsFar`).
- The opening enemies may avoid the wrong point.
  - The enemy generator runs while the player's turtle is still at the
    world origin.
  - The model takes the game framework's `add_element` to run the element's
    `create`, and so `random_spawn`, at once (see "## Left out").
  - Under that assumption the opening enemies avoid (0, 0), not the
    player's starting point (50, height // 2)
    (`Game.TurtleAdventureGame.InitGame`).
- A drunk-bouncy enemy crossing a corner splits twice.
  - `y_state` still runs on the instance that `x_state` has just deleted.
  - That gives four children. The second pair is placed by the x test of
    `create_dupe`'s chain (`Enemies.BounceSplitCorner`).
  - Deleting the already deleted instance is a no-op.
- A random-walk enemy's new waypoint may equal the old one
  (`Enemies.WalkWaypoint`).

## Model

| member | source | states |
|---|---|---|
| Geometry.Home.Contains | turtle_adventure.py:131-137 | the home contains a point iff both axis distances from its centre are at most half its side |
| Geometry.ContainsEvenIntegers | turtle_adventure.py:131-137 | for an even side and an integer point, containment is the integer range test `x - size/2 <= px <= x + size/2` on both axes |
| Geometry.ContainsBorderInclusive | turtle_adventure.py:131-137 | all four corners of the square are inside the home; a point any distance beyond any of its four sides is not |
| Geometry.HitsPlayer | turtle_adventure.py:240-250 | an enemy hits the player iff both axis distances from the enemy's centre to the player are strictly below half its side |
| Geometry.HitsAtSamePosition | turtle_adventure.py:240-250 | an enemy of positive size standing on the player hits it |
| Geometry.NoHitOnBorder | turtle_adventure.py:240-250 | a player exactly half a side from the enemy's centre, on either side of either axis, is not hit: the box is open |
| Geometry.NoHitWithoutSize | turtle_adventure.py:240-250 | an enemy whose size is zero or negative never hits |
| Geometry.HitIsStrictContainment | turtle_adventure.py:240-250 | a hit is the strict version of home containment: every hit lies in a home-shaped square of the same centre and size, and a point of that square that is not hit lies on its border |
| Enemies.Enemy.Hits | turtle_adventure.py:240-250 | no contract of its own: `hits_player` on the enemy's own position and size; stated by `Geometry.HitsPlayer` and the `Game.TurtleAdventureGame.Update*` methods, whose loss test it is |
| Spawn.FirstAccepted | turtle_adventure.py:306-314 | the draw `random_spawn` settles on is one of the draws and is not rejected by the loop condition |
| Spawn.Rejected | turtle_adventure.py:309-310 | no contract of its own: the loop condition; what it means is stated by `Spawn.AcceptedIsFar` |
| Spawn.InCanvas | turtle_adventure.py:306-307 | no contract of its own: a draw `randint(0, width)`, `randint(0, height)` can yield, bounds included; required of every draw by `Spawn.Feasible` |
| Spawn.Feasible | turtle_adventure.py:306-314 | no contract of its own: every draw is one `randint` may yield and some draw is accepted; required by `Spawn.RandomSpawn` and `Spawn.FirstAccepted` |
| Spawn.AcceptedIsFar | turtle_adventure.py:309-310 | a draw is accepted iff it is at least 100 from the player on both axes |
| Spawn.RandomSpawn | turtle_adventure.py:306-314 | the loop returns the first draw the condition does not reject: it lies in the canvas, is not rejected, and every earlier draw was rejected |
| Enemies.DemoStep | turtle_adventure.py:269-271 | no contract of its own: one demo update; its effect over any number of updates is stated by `Enemies.DemoDrifts` |
| Enemies.DemoRun | turtle_adventure.py:269-271 | no contract of its own: n demo updates in a row; stated by `Enemies.DemoDrifts` |
| Enemies.DemoDrifts | turtle_adventure.py:269-271 | after n updates a demo enemy has moved n right and n down, and nothing else about it has changed |
| Enemies.WalkAxis | turtle_adventure.py:321-329 | one axis of the walker's step moves it one unit toward the waypoint, never past it, and not at all when it is level with it |
| Enemies.WalkStep | turtle_adventure.py:321-331 | no contract of its own: one walker update; its meaning is stated by `Enemies.WalkAxis`, `Enemies.WalkApproaches`, `Enemies.WalkWaypoint` and `Enemies.WalkArrives` |
| Enemies.WalkRun | turtle_adventure.py:321-331 | n walker updates in a row keep a random-walk enemy a random-walk enemy; where they lead is stated by `Enemies.WalkArrives` |
| Enemies.WalkApproaches | turtle_adventure.py:321-329 | each step shrinks a non-zero axis distance to the waypoint by exactly one, on the same side |
| Enemies.WalkWaypoint | turtle_adventure.py:330-331 | the walker keeps its waypoint until it stands on it; then the waypoint becomes the new draw, which may equal the old one |
| Enemies.WalkArrives | turtle_adventure.py:321-331 | a walker whose larger axis distance to its waypoint is n stands on the waypoint after exactly n steps, and keeps the waypoint until then |
| Enemies.ChaseSpeed | turtle_adventure.py:377-384 | no contract of its own: the axis speed; its effect on the gap is stated by `Enemies.ChaseGap` |
| Enemies.ChaseStep | turtle_adventure.py:373-393 | the chaser's size and kind are kept |
| Enemies.ChaseAxis | turtle_adventure.py:386-393 | no contract of its own: the chaser's move on one axis; stated by `Enemies.ChaseMeaning`, `Enemies.ChaseOvershoots` and `Enemies.ChaseGap` |
| Enemies.ChaseMeaning | turtle_adventure.py:386-393 | the chaser moves by the axis speed toward the player, or not at all when level with it; the new gap is the absolute difference of the old gap and the speed |
| Enemies.ChaseOvershoots | turtle_adventure.py:386-393 | the step is not clamped: a gap of 1 becomes a gap of 1 on the other side |
| Enemies.ChaseGap | turtle_adventure.py:377-393 | farther than 80 from the player on an axis, the gap on that axis shrinks by 5 and the chaser stays on the same side; within 80 the new gap is the absolute value of the old gap less 2; level with the player it does not move |
| Enemies.XSplitDirs | turtle_adventure.py:523-535 | a split at an x edge creates two children with the reversed x direction, the first going up and the second going down |
| Enemies.YSplitDirs | turtle_adventure.py:537-549 | a split at a y edge creates two children with the reversed y direction, the first going left and the second going right |
| Enemies.DupePlace | turtle_adventure.py:503-514 | no contract of its own: the placement chain of `create_dupe`; stated by `Enemies.DupeInsideCrossedEdge` and `Enemies.DupeNotAtOrigin` |
| Enemies.DupeInsideCrossedEdge | turtle_adventure.py:503-514 | the child lands one unit inside the first crossed edge, testing left, right, top and bottom in that order, at the parent's coordinate along that edge, and so strictly inside the canvas on the crossed axis |
| Enemies.Dupes | turtle_adventure.py:499-515 | no contract of its own: the children of a series of `create_dupe` calls; stated by `Game.TurtleAdventureGame.CreateDupe`, `Enemies.BounceSplitX`, `Enemies.BounceSplitY` and `Enemies.BounceSplitCorner` |
| Game.DupesPair | turtle_adventure.py:523-549 | two `create_dupe` calls in a row add the children of the first direction pair and then those of the second |
| Enemies.BounceStep | turtle_adventure.py:517-521 | the bouncy instance keeps its size and handlers, and it has split iff it added children |
| Enemies.BounceMoves | turtle_adventure.py:523-549 | each update moves the instance 3 on each axis, in the directions of its handlers |
| Enemies.XMove | turtle_adventure.py:523-535 | no contract of its own: `left_state` and `right_state` move x by 3; stated by `Enemies.BounceMoves` |
| Enemies.YMove | turtle_adventure.py:537-549 | no contract of its own: `up_state` and `down_state` move y by 3; stated by `Enemies.BounceMoves` |
| Enemies.XSplits | turtle_adventure.py:523-535 | no contract of its own: the x edge test of the handler just run (x <= 0 moving left, x >= width moving right); stated by `Enemies.BounceStep`, `Enemies.BounceSplitX`, `Enemies.BounceSplitCorner` and `Enemies.BounceNoSplit` |
| Enemies.YSplits | turtle_adventure.py:537-549 | no contract of its own: the y edge test of the handler just run (y <= 0 moving up, y >= height moving down); stated by `Enemies.BounceStep`, `Enemies.BounceSplitY`, `Enemies.BounceSplitCorner` and `Enemies.BounceNoSplit` |
| Enemies.ReverseX | turtle_adventure.py:523-535 | no contract of its own: `left_state` splits into right-going children and `right_state` into left-going ones; stated by `Enemies.XSplitDirs` |
| Enemies.ReverseY | turtle_adventure.py:537-549 | no contract of its own: `up_state` splits into down-going children and `down_state` into up-going ones; stated by `Enemies.YSplitDirs` |
| Enemies.BounceSplitX | turtle_adventure.py:499-535 | crossing only an x edge yields exactly two size-10 children, one unit inside that edge at the parent's height, with the reversed x direction, going up then down |
| Enemies.BounceSplitY | turtle_adventure.py:499-549 | crossing only a y edge yields exactly two children, one unit inside that edge at the parent's new x, going left then right, with the reversed y direction |
| Enemies.BounceSplitCorner | turtle_adventure.py:499-549 | crossing a corner yields four size-10 children: the first pair one unit inside the x edge with the reversed x direction, going up then down; the second pair also one unit inside the x edge, not the y edge, going left then right with the reversed y direction |
| Enemies.BounceNoSplit | turtle_adventure.py:523-549 | without a crossing the instance does not split |
| Enemies.DupeNotAtOrigin | turtle_adventure.py:503-514 | on a canvas of at least 2 x 2 a child of a parent outside the canvas never lands on the origin, so adding it does not re-spawn it at random |
| Enemies.BounceChildrenOffOrigin | turtle_adventure.py:499-549 | every child of one update has size 10, is a drunk-bouncy enemy and is off the origin |
| Fence.NextPhase | turtle_adventure.py:433-451 | no contract of its own: the handler each handler switches to; stated by `Fence.PhaseCycle` and `Fence.FenceStep` |
| Fence.AtTurn | turtle_adventure.py:433-451 | no contract of its own: the turning test of each handler; how it drives the patrol is stated by `Fence.FenceStep` and the leg lemmas |
| Fence.FenceStep | turtle_adventure.py:433-456 | a fencing step keeps the size and the patrolled home, moves exactly one axis by 5, and switches to the next handler iff the enemy stands on its turning coordinate |
| Fence.MovesInOldDirection | turtle_adventure.py:433-451 | on the update where the handler switches, the enemy still moves in the old handler's direction |
| Fence.PhaseCycle | turtle_adventure.py:433-451 | each switch changes the handler, and four switches lead back to the same one |
| Fence.FenceStart | turtle_adventure.py:427-431 | no contract of its own: a fencing enemy as `create` places it; what follows from it is stated by `Fence.PatrolInvariant`, `Fence.NeverBackToStart` and `Fence.FirstLap` |
| Fence.FenceRun | turtle_adventure.py:453-456 | any number of updates keeps the size, the kind and the patrolled home |
| Fence.OnPatrolBounds | turtle_adventure.py:433-451 | every patrol position is within home +- 45 on both axes, at offsets that are multiples of 5 |
| Fence.OnPatrolStep | turtle_adventure.py:433-456 | one update keeps the enemy on its patrol |
| Fence.PastStartStep | turtle_adventure.py:433-456 | once past its starting corner, one update keeps the enemy past it |
| Fence.PatrolInvariant | turtle_adventure.py:427-456 | from the place `create` puts it, a fencing enemy stays on its patrol within home +- 45 after any number of updates |
| Fence.PastStartRun | turtle_adventure.py:453-456 | once past its starting corner, any number of updates keeps the enemy past it |
| Fence.NeverBackToStart | turtle_adventure.py:427-456 | after at least one update, a fencing enemy is never back at its starting state |
| Fence.RunAdd | turtle_adventure.py:453-456 | a + b updates are a updates followed by b updates |
| Fence.DownLeg | turtle_adventure.py:448-451 | a `down` leg k steps above home + 40 reaches home + 45 and switches to `right` after k + 1 updates |
| Fence.RightLeg | turtle_adventure.py:438-441 | a `right` leg k steps left of home + 40 reaches home + 45 and switches to `up` after k + 1 updates |
| Fence.UpLeg | turtle_adventure.py:443-446 | an `up` leg k steps below home - 40 reaches home - 45 and switches to `left` after k + 1 updates |
| Fence.LeftLeg | turtle_adventure.py:433-436 | a `left` leg k steps right of home - 40 reaches home - 45 and switches to `down` after k + 1 updates |
| Fence.FirstLap | turtle_adventure.py:427-456 | the first lap takes 70 updates and ends at home - 45 with the `down` handler, not at the starting corner |
| Fence.SteadyLap | turtle_adventure.py:433-456 | from that corner the patrol repeats every 72 updates |
| Game.Won | turtle_adventure.py:677-687 | no contract of its own: the session after `game_over_win`; stated by `Game.Outcomes` |
| Game.Lost | turtle_adventure.py:689-700 | no contract of its own: the session after `game_over_lose`; stated by `Game.Outcomes` |
| Game.Outcomes | turtle_adventure.py:677-700 | winning stops the game, keeps the level and writes "You Win Level <level>"; losing stops it, resets the level to 0 and writes "You Lose"; a loss after a win in the same tick writes both texts and leaves level 0 |
| Game.Timers | turtle_adventure.py:592-596 | the scheduling loop makes two `after` calls per round |
| Game.TimersAt | turtle_adventure.py:592-596 | round k schedules a random batch at timer * 2^k and a fencing enemy at half of it |
| Game.GeneratorDelays | turtle_adventure.py:592-596 | from the start of 400: random batches at 400 * 2^k and fencing enemies at 200 * 2^k |
| Game.Count | turtle_adventure.py:599 | no contract of its own: the number of rounds of `range(level)`; the growth it gives is stated by the `Game.EnemyGenerator.Create*` methods and `Game.TurtleAdventureGame.InitGame` |
| Game.ChaserCount | turtle_adventure.py:616 | `range(int(level / 2))` runs level / 2 rounded down for a non-negative level, and zero for a level below 2 |
| Game.NeedsSpawn | turtle_adventure.py:301-304 | no contract of its own: the test by which `create` of a walker, chaser or bouncy enemy calls `random_spawn` (the enemy is still at the origin); stated by `Game.Created` |
| Game.Created | turtle_adventure.py:265-487 | the `create` methods (demo 265-267, random walk 301-304, chasing 358-361, fencing 427-431, drunk bouncy 484-487): `create` sends a fencing enemy to home - 40 and places a walker, chaser or bouncy enemy still at the origin by `random_spawn`; any other enemy keeps its place, and size and kind are always kept |
| Game.NewWalker | turtle_adventure.py:603-610 | a new random-walk enemy has size 20, 30 or 40, its waypoint from `generate_waypoint`, and a spawn in the canvas that the loop accepted |
| Game.NewChaser | turtle_adventure.py:612-619 | a new chasing enemy has size 20, 30 or 40 and a spawn in the canvas that the loop accepted |
| Game.NewBouncy | turtle_adventure.py:598-601 | a new drunk-bouncy enemy has size 10, the drawn handlers and a spawn in the canvas that the loop accepted |
| Game.WalkerDrawOk | turtle_adventure.py:603-610 | no contract of its own: one set of walker draws is usable, with a waypoint in the canvas and a spawn the loop accepts; required by `Game.NewWalker` |
| Game.WalkerDrawsOk | turtle_adventure.py:588-589 | no contract of its own: every set of walker draws is usable; its meaning is stated by `Game.WalkerDrawsOkIff` |
| Game.WalkerDrawsOkIff | turtle_adventure.py:588-589 | a run of walker draws is usable iff each set in it is usable |
| Game.WalkerDrawsPrefix | turtle_adventure.py:588-589 | the draws before any position of a usable run are usable |
| Game.WalkerDrawsSuffix | turtle_adventure.py:588-589 | the draws from any position of a usable run on are usable |
| Game.WalkerDrawsSplit | turtle_adventure.py:588-589 | cutting a usable run at i <= j gives usable runs before i and from i to j, which together make up the run before j |
| Game.WalkerDrawsAppend | turtle_adventure.py:588-589 | two usable runs of draws, one after the other, make a usable run |
| Game.NewWalkers | turtle_adventure.py:603-610 | the walkers of a run of draws: one per set of draws |
| Game.NewWalkersAt | turtle_adventure.py:603-610 | the k-th set of a usable run is usable, and the k-th walker of the run is `NewWalker` of it |
| Game.NewWalkersAppend | turtle_adventure.py:588-589 | the walkers of two consecutive runs of draws are the walkers of the first followed by those of the second |
| Game.NewWalkersStep | turtle_adventure.py:588-589 | enemies holding the walkers of the draws before i, followed by the walkers of the draws from i to j, hold the walkers of the draws before j |
| Game.NewWalkersIndexed | turtle_adventure.py:588-589 | enemies that are the old ones followed by the walkers of a run of draws are as long as both, start with the old ones and hold at each later position the walker of the matching draw |
| Game.WalkersAppended | turtle_adventure.py:588-589 | no contract of its own: the enemies are the old ones followed by the walkers of a usable run of draws; kept by `Game.EnemyGenerator.RandomBatch` and `Game.EnemyGenerator.CreateRandomEnemy` |
| Game.NextBatch | turtle_adventure.py:588-589 | one more batch of `level` draws after fewer than five still fits in five batches |
| Game.Waypoint.constructor | turtle_adventure.py:34-38 | a new waypoint is inactive |
| Game.Waypoint.Activate | turtle_adventure.py:66-72 | activating sets the position and marks the waypoint active |
| Game.Waypoint.Deactivate | turtle_adventure.py:74-78 | deactivating clears the flag and changes nothing else |
| Game.ClickThenArrive | turtle_adventure.py:66-78 | after a click and an arrival the waypoint is inactive and still at the clicked position |
| Game.WithinStep | turtle_adventure.py:185 | no contract of its own: the turtle is closer to the waypoint than its speed; how it ends a move is stated by `Game.Player.Update` |
| Game.Player.Update | turtle_adventure.py:176-186 | a player inside the home wins; the check does not return, so the player still moves toward an active waypoint, and the waypoint is deactivated iff the new position is closer than the speed; with no active waypoint nothing moves |
| Game.Player.constructor | turtle_adventure.py:145-160 | a new player has the given speed and its turtle stands at the world origin |
| Game.TurtleAdventureGame.constructor | turtle_adventure.py:635-661 | the home is at (width - 100, height // 2) with size 20, the waypoint is inactive, and the new player's turtle is at the origin with speed 5 |
| Game.TurtleAdventureGame.CanvasOk | turtle_adventure.py:635-661 | no contract of its own: the canvas is at least 2 x 2; established by `Game.TurtleAdventureGame.constructor` |
| Game.TurtleAdventureGame.OpeningOk | turtle_adventure.py:665-668 | no contract of its own: the opening draws fit `create_enemy` at the level: 5·level usable walker draws and level bouncy draws with an accepted spawn; required by `Game.TurtleAdventureGame.InitGame` |
| Game.TurtleAdventureGame.InitGame | turtle_adventure.py:665-668 | the generator adds 5·level walkers and then level bouncy enemies, all spawned away from the turtle's origin position, and schedules its timers; only then is the player moved to (50, height // 2) |
| Game.TurtleAdventureGame.GameOverWin | turtle_adventure.py:677-687 | the session becomes `Won` of the old one |
| Game.TurtleAdventureGame.GameOverLose | turtle_adventure.py:689-700 | the session becomes `Lost` of the old one |
| Game.TurtleAdventureGame.UpdateDemo | turtle_adventure.py:269-274 | the demo enemy takes its step and the game is lost iff the moved enemy hits the player; the enemy stays in the game |
| Game.TurtleAdventureGame.UpdateRandomWalk | turtle_adventure.py:321-333 | the walker takes its step, its waypoint stays in the canvas, and the game is lost iff the moved enemy hits the player |
| Game.TurtleAdventureGame.UpdateChasing | turtle_adventure.py:373-395 | the chaser takes its step toward the player and the game is lost iff the moved enemy hits the player |
| Game.TurtleAdventureGame.UpdateFencing | turtle_adventure.py:453-456 | the fencing enemy runs its stored handler and the game is lost iff the moved enemy hits the player |
| Game.TurtleAdventureGame.CreateDupe | turtle_adventure.py:499-515 | one child is appended at the place the chain chooses |
| Game.TurtleAdventureGame.Removed | turtle_adventure.py:523-549 | no contract of its own: the enemies after `delete_element` of the parent, if it is still present; stated by `Game.TurtleAdventureGame.Split` and `Game.TurtleAdventureGame.UpdateDrunkBouncy` |
| Game.TurtleAdventureGame.Split | turtle_adventure.py:523-549 | two children are appended, and then the parent is deleted if it is still present |
| Game.TurtleAdventureGame.LeftState | turtle_adventure.py:523-528 | move left by 3; at x <= 0, split into two right-going children and delete the parent |
| Game.TurtleAdventureGame.RightState | turtle_adventure.py:530-535 | move right by 3; at x >= width, split into two left-going children and delete the parent |
| Game.TurtleAdventureGame.UpState | turtle_adventure.py:537-542 | move up by 3; at y <= 0, split into two down-going children and delete the parent |
| Game.TurtleAdventureGame.DownState | turtle_adventure.py:544-549 | move down by 3; at y >= height, split into two up-going children and delete the parent |
| Game.TurtleAdventureGame.XState | turtle_adventure.py:517-535 | calls `left_state` or `right_state` as the stored handler says: moves x by 3 that way and, when that crosses the edge, removes the parent if present and appends the two children with the reversed x direction |
| Game.TurtleAdventureGame.YState | turtle_adventure.py:517-549 | calls `up_state` or `down_state` as the stored handler says: moves y by 3 that way and, when that crosses the edge, removes the parent if still present and appends the two children with the reversed y direction |
| Game.TurtleAdventureGame.UpdateDrunkBouncy | turtle_adventure.py:517-521 | the enemies become what `BounceStep` describes: the parent is removed and the children appended on a split, otherwise the parent moves in place; the game is lost iff the final position hits the player |
| Game.TurtleAdventureGame.AddElement | turtle_adventure.py:265-487 | the enemy is appended as its kind's `create` (demo 265-267, random walk 301-304, chasing 358-361, fencing 427-431, drunk bouncy 484-487) leaves it |
| Game.TurtleAdventureGame.DeleteElement | turtle_adventure.py:523-528 | the enemy at the index is removed and the order of the others is kept |
| Game.TurtleAdventureGame.After | turtle_adventure.py:590-595 | the `after` call is recorded at the end of the timers |
| Game.EnemyGenerator.constructor | turtle_adventure.py:568-571 | constructing the generator runs `create_enemy` |
| Game.EnemyGenerator.CreateEnemy | turtle_adventure.py:587-596 | adds 5·level walkers from consecutive draws, then level bouncy enemies; schedules the chasing batch at 600, then for each level a random batch at 400·2^k and a fencing enemy at half of that |
| Game.EnemyGenerator.CreateRandomBatches | turtle_adventure.py:588-589 | five `create_random_enemy` batches append 5·level walkers, batch after batch, each from the next `level` draws in order |
| Game.EnemyGenerator.RandomBatch | turtle_adventure.py:588-589 | one pass of the first loop: with the walkers of the draws before `done` added, `create_random_enemy` on the next `level` draws leaves the walkers of the draws before `done + level`; the player does not move |
| Game.EnemyGenerator.ScheduleRounds | turtle_adventure.py:592-596 | for each level, records an `after` call for a random batch at 400·2^k and one for a fencing enemy at half of it, in order |
| Game.EnemyGenerator.CreateMyEnemy | turtle_adventure.py:598-601 | appends level drunk-bouncy enemies of size 10, one per draw, in order |
| Game.EnemyGenerator.CreateRandomEnemy | turtle_adventure.py:603-610 | appends `NewWalkers` of the level sets of draws: one random-walk enemy per set, in order, each spawned away from the player's position, which does not change |
| Game.EnemyGenerator.CreateChasingEnemy | turtle_adventure.py:612-619 | appends int(level / 2) chasing enemies, one per draw, in order |
| Game.EnemyGenerator.CreateFencingEnemy | turtle_adventure.py:621-626 | appends one size-20 fencing enemy at home - 40 with the `down` handler, patrolling the game's home |

## Left out

- Drawing is not modelled: canvas items, `render`, colours, the turtle's
  shape and the end texts' font, position and colour. Only the wording of
  the end text is kept.
- The turtle's trigonometry is not modelled. `setheading(towards(...))`
  followed by `forward(speed)` is an input to `Player.Update`.
- The game framework's tick loop is not modelled: the order in which
  elements are updated, the firing of `after` callbacks, and `stop`
  halting the loop. Each update is a method on one enemy. `after` is only
  recorded.
- Game.TurtleAdventureGame.AddElement assumes that the game framework's
  `add_element` runs the element's `create` at once. The framework is not
  part of this model. Game.TurtleAdventureGame.InitGame relies on this:
  its opening enemies are spawned away from the turtle's origin because the
  generator runs before the player is moved. If the framework deferred
  `create`, they would be spawned away from (50, height // 2) instead, and
  the model does not capture that.
- Elements start at (0, 0). This is the default position the game
  framework is taken to give a new element; that code is not part of this
  model.
- Deleting an element that is no longer in the game is taken to change
  nothing. This is what happens to a drunk-bouncy enemy that splits on
  both axes in one update.
- Game.TurtleAdventureGame.constructor requires a canvas of at least
  2 x 2. On a canvas 1 pixel wide, a split child could land on the origin
  and be re-spawned at random.
- `random` is an oracle: the draws are inputs. `random_spawn` loops forever
  when no draw is ever accepted. The model requires that some draw in the
  sequence is accepted (`Spawn.Feasible`), so that case is left out.
- Game.ChaserCount uses exact integer division. `int(level / 2)` goes
  through a float, which is only exact below 2^53.
- `main.py`, which builds the window and starts the game, is not part of
  this model.
- `add_enemy` is not modelled. Nothing calls it. Enemies enter the game
  through `add_element`, modelled as `AddElement`.
- The non-enemy elements (waypoint, home, player) are fields of the game,
  not members of the element collection. Their `update` methods, apart
  from the player's, do nothing.
- The random-walk enemy's private `Waypoint` object is held as the two
  coordinates of its `RandomWalk` kind. It is always active and only its
  position is ever read.
- Canvas size: `winfo_width` and `winfo_height` are taken to be the screen
  size the game was built with. Click positions and waypoint coordinates
  are integers, as tkinter reports them.
- Game.TurtleAdventureGame.InitGame does not model the canvas setup,
  `setworldcoordinates` or the click binding. Its contract states the
  added enemies and timers but not the waypoint and home elements, which
  the model keeps as fields.
