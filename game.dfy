/** The game session of Turtle's Adventure: its waypoint, player, enemy
    collection, end-of-game handling and the enemy generator. The tick loop,
    the canvas and the timer service of the game framework are outside the
    model; their observable effects are fields of the session (the sequence of
    enemies, the recorded `after` calls, the texts written at the end). */
module Game {
  import opened Geometry
  import opened Spawn
  import opened Enemies
  import opened Fence

  /** The text `game_over_win` / `game_over_lose` writes on the canvas. */
  datatype EndText = YouWin(level: int) | YouLose

  /** What the session shows of its outcome: whether the tick loop was stopped,
      the level, and the end texts written so far (oldest first). */
  datatype Session = Session(stopped: bool, level: int, texts: seq<EndText>)

  /** The session after `game_over_win`. */
  function Won(s: Session): Session
  {
    Session(true, s.level, s.texts + [YouWin(s.level)])
  }

  /** The session after `game_over_lose`. */
  function Lost(s: Session): Session
  {
    Session(true, 0, s.texts + [YouLose])
  }

  /** Winning keeps the level and reports it; losing resets the level to 0.
      Both stop the session, and a second end in the same tick writes a second
      text over the first. */
  lemma Outcomes(s: Session)
    ensures Won(s).stopped && Won(s).level == s.level && Won(s).texts[|s.texts|] == YouWin(s.level)
    ensures Lost(s).stopped && Lost(s).level == 0 && Lost(s).texts[|s.texts|] == YouLose
    ensures Lost(Won(s)).level == 0 && Lost(Won(s)).texts == s.texts + [YouWin(s.level), YouLose]
  {
  }

  /** The callbacks the enemy generator hands to `game.after`:
      `create_random_enemy`, `create_chasing_enemy`, `create_fencing_enemy`. */
  datatype Callback = RandomEnemies | ChasingEnemies | FencingEnemy

  /** One recorded `game.after(delay, callback)` call. */
  datatype Timer = Timer(delay: int, callback: Callback)

  /** The `after` calls of the scheduling loop of `create_enemy` for `n`
      remaining rounds starting with `timer`: a random batch at `timer`, a
      fencing enemy at `timer // 2`, then `timer` doubles. */
  function Timers(n: nat, timer: int): (r: seq<Timer>)
    ensures |r| == 2 * n
  {
    if n == 0 then []
    else [Timer(timer, RandomEnemies), Timer(timer / 2, FencingEnemy)] + Timers(n - 1, timer + timer)
  }

  function Pow2(k: nat): (p: nat)
    ensures p >= 1
  {
    if k == 0 then 1 else 2 * Pow2(k - 1)
  }

  /** Round `k` of the loop schedules a random batch at `timer * 2^k` and a
      fencing enemy at half that. */
  lemma {:induction false} TimersAt(n: nat, timer: int, k: nat)
    requires k < n
    ensures Timers(n, timer)[2 * k] == Timer(timer * Pow2(k), RandomEnemies)
    ensures Timers(n, timer)[2 * k + 1] == Timer((timer * Pow2(k)) / 2, FencingEnemy)
    decreases k
  {
    if k > 0 {
      TimersAt(n - 1, timer + timer, k - 1);
      assert (timer + timer) * Pow2(k - 1) == timer * Pow2(k);
      assert Timers(n, timer)[2 * k] == Timers(n - 1, timer + timer)[2 * (k - 1)];
      assert Timers(n, timer)[2 * k + 1] == Timers(n - 1, timer + timer)[2 * (k - 1) + 1];
    }
  }

  /** With the source's start of 400: random batches at 400 * 2^k and fencing
      enemies at 200 * 2^k, for each round k below the level. */
  lemma GeneratorDelays(n: nat, k: nat)
    requires k < n
    ensures Timers(n, 400)[2 * k] == Timer(400 * Pow2(k), RandomEnemies)
    ensures Timers(n, 400)[2 * k + 1] == Timer(200 * Pow2(k), FencingEnemy)
  {
    TimersAt(n, 400, k);
    assert 400 * Pow2(k) == 2 * (200 * Pow2(k));
  }

  /** `range(level)` runs this many times. */
  function Count(level: int): nat
  {
    if level < 0 then 0 else level
  }

  /** `range(int(level / 2))` runs this many times: the float quotient is
      truncated toward zero, and a negative count runs no round. */
  function ChaserCount(level: int): (n: nat)
    ensures level >= 0 ==> 2 * n <= level < 2 * n + 2
    ensures level < 2 ==> n == 0
  {
    if level < 2 then 0 else level / 2
  }

  /** A size drawn by `random.choice([20, 30, 40])`, as an index. */
  type SizeChoice = i: int | 0 <= i < 3

  /** The random draws a random-walk enemy consumes: its size, its first
      waypoint (`generate_waypoint`) and the draws of `random_spawn`. */
  datatype WalkerDraw = WalkerDraw(size: SizeChoice, waypoint: Draw, spawn: seq<Draw>)

  /** The random draws a chasing enemy consumes. */
  datatype ChaserDraw = ChaserDraw(size: SizeChoice, spawn: seq<Draw>)

  /** The random draws a drunk-bouncy enemy consumes: its two handlers and the
      draws of `random_spawn`. */
  datatype BouncyDraw = BouncyDraw(xState: XDir, yState: YDir, spawn: seq<Draw>)

  /** The draws `create_enemy` consumes at once: five random batches, one after
      the other, then the drunk-bouncy batch. */
  datatype OpeningDraws = OpeningDraws(walkers: seq<WalkerDraw>, bouncers: seq<BouncyDraw>)

  /** Whether `create` calls `random_spawn` for this enemy: the random-walk,
      chasing and drunk-bouncy kinds do so when still at the origin. */
  predicate NeedsSpawn(e: Enemy)
  {
    (e.kind.RandomWalk? || e.kind.Chasing? || e.kind.DrunkBouncy?) && e.x == 0 && e.y == 0
  }

  /** The enemy as `add_element` leaves it after its `create`: a fencing enemy
      goes to home - 40, one still at the origin is placed by `random_spawn`,
      any other keeps its position. */
  function Created(e: Enemy, spawn: seq<Draw>, px: real, py: real, home: Home): (r: Enemy)
    requires NeedsSpawn(e) ==> exists k :: 0 <= k < |spawn| && !Rejected(spawn[k], px, py)
    ensures r.size == e.size && r.kind == e.kind
    ensures NeedsSpawn(e) ==> (r.x, r.y) == FirstAccepted(spawn, px, py)
    ensures e.kind.Fencing? ==> r.x == home.x - FenceDistance && r.y == home.y - FenceDistance
    ensures !NeedsSpawn(e) && !e.kind.Fencing? ==> r == e
  {
    match e.kind
    case Fencing(_, _, _) => e.(x := home.x - FenceDistance, y := home.y - FenceDistance)
    case Demo => e
    case _ =>
      if e.x == 0 && e.y == 0 then
        var p := FirstAccepted(spawn, px, py);
        e.(x := p.0, y := p.1)
      else e
  }

  /** One set of walker draws is usable: the waypoint lies in the canvas and
      some spawn draw is accepted. */
  predicate WalkerDrawOk(d: WalkerDraw, px: real, py: real, width: int, height: int)
  {
    InCanvas(d.waypoint, width, height) && Feasible(d.spawn, px, py, width, height)
  }

  /** Every set of walker draws in `ds` is usable, stated on the last set and
      the ones before it, the way `NewWalkers` takes them apart. */
  predicate WalkerDrawsOk(ds: seq<WalkerDraw>, px: real, py: real, width: int, height: int)
    decreases |ds|
  {
    |ds| == 0 ||
    (WalkerDrawsOk(ds[..|ds| - 1], px, py, width, height) && WalkerDrawOk(ds[|ds| - 1], px, py, width, height))
  }

  /** `WalkerDrawsOk` holds exactly when each set of draws is usable. */
  lemma {:induction false} WalkerDrawsOkIff(ds: seq<WalkerDraw>, px: real, py: real, width: int, height: int)
    ensures WalkerDrawsOk(ds, px, py, width, height) <==>
            forall k :: 0 <= k < |ds| ==> WalkerDrawOk(ds[k], px, py, width, height)
    decreases |ds|
  {
    if |ds| > 0 {
      var init := ds[..|ds| - 1];
      WalkerDrawsOkIff(init, px, py, width, height);
      assert forall k :: 0 <= k < |init| ==> init[k] == ds[k];
    }
  }

  /** The random-walk enemy `create_random_enemy` adds for one set of draws. */
  function NewWalker(d: WalkerDraw, px: real, py: real, width: int, height: int, home: Home): (e: Enemy)
    requires WalkerDrawOk(d, px, py, width, height)
    ensures e.kind == RandomWalk(d.waypoint.0, d.waypoint.1)
    ensures e.size == 20 || e.size == 30 || e.size == 40
    ensures InCanvas((e.x, e.y), width, height) && !Rejected((e.x, e.y), px, py)
  {
    var e := Created(Enemy(0, 0, WalkerSizes[d.size], RandomWalk(d.waypoint.0, d.waypoint.1)),
                     d.spawn, px, py, home);
    assert (e.x, e.y) in d.spawn;
    e
  }

  /** The chasing enemy `create_chasing_enemy` adds for one set of draws. */
  function NewChaser(d: ChaserDraw, px: real, py: real, width: int, height: int, home: Home): (e: Enemy)
    requires Feasible(d.spawn, px, py, width, height)
    ensures e.kind == Chasing
    ensures e.size == 20 || e.size == 30 || e.size == 40
    ensures InCanvas((e.x, e.y), width, height) && !Rejected((e.x, e.y), px, py)
  {
    var e := Created(Enemy(0, 0, WalkerSizes[d.size], Chasing), d.spawn, px, py, home);
    assert (e.x, e.y) in d.spawn;
    e
  }

  /** The drunk-bouncy enemy `create_my_enemy` adds for one set of draws. */
  function NewBouncy(d: BouncyDraw, px: real, py: real, width: int, height: int, home: Home): (e: Enemy)
    requires Feasible(d.spawn, px, py, width, height)
    ensures e.kind == DrunkBouncy(d.xState, d.yState) && e.size == DupeSize
    ensures InCanvas((e.x, e.y), width, height) && !Rejected((e.x, e.y), px, py)
  {
    var e := Created(Enemy(0, 0, DupeSize, DrunkBouncy(d.xState, d.yState)), d.spawn, px, py, home);
    assert (e.x, e.y) in d.spawn;
    e
  }

  /** `Waypoint`: where the player heads, and whether it is active. */
  class Waypoint {
    var x: int
    var y: int
    var active: bool

    constructor ()
      ensures x == 0 && y == 0 && !active
    {
      x, y, active := 0, 0, false;
    }

    /** `activate`: set the position and mark the waypoint active. */
    method Activate(x: int, y: int)
      modifies this
      ensures active && this.x == x && this.y == y
    {
      active := true;
      this.x := x;
      this.y := y;
    }

    /** `deactivate`: mark the waypoint inactive; the position is kept. */
    method Deactivate()
      modifies this`active
      ensures !active
    {
      active := false;
    }
  }

  /** A click activates the waypoint where it happened; arriving deactivates
      it, and the position stays where the click put it. */
  method ClickThenArrive(x: int, y: int) returns (wx: int, wy: int, active: bool)
    ensures wx == x && wy == y && !active
  {
    var w := new Waypoint();
    w.Activate(x, y);
    w.Deactivate();
    wx, wy, active := w.x, w.y, w.active;
  }

  /** `turtle.distance(w) < speed` for the Euclidean distance: comparing the
      squares is exact because a distance is never negative. */
  predicate WithinStep(px: real, py: real, wx: int, wy: int, speed: real)
  {
    speed >= 0.0 &&
    (px - wx as real) * (px - wx as real) + (py - wy as real) * (py - wy as real) < speed * speed
  }

  /** `Player`: the turtle's position and speed. */
  class Player {
    var x: real
    var y: real
    const speed: real

    /** A new turtle stands at the world origin. */
    constructor (speed: real)
      ensures x == 0.0 && y == 0.0 && this.speed == speed
    {
      x, y := 0.0, 0.0;
      this.speed := speed;
    }

    /** `Player.update`: the win check comes first and does not return, so a
        player standing in the home still moves toward an active waypoint in
        the same update. `moved` is where `setheading(towards(w))` followed by
        `forward(speed)` puts the turtle; that trigonometry is not modelled. */
    method Update(game: TurtleAdventureGame, moved: (real, real))
      modifies this, game`stopped, game`texts, game.waypoint`active
      ensures game.Status() == if old(game.home.Contains(x, y)) then Won(old(game.Status()))
                               else old(game.Status())
      ensures old(game.waypoint.active) ==>
                (x, y) == moved &&
                game.waypoint.active == !WithinStep(moved.0, moved.1, game.waypoint.x, game.waypoint.y, speed)
      ensures !old(game.waypoint.active) ==> x == old(x) && y == old(y) && !game.waypoint.active
    {
      if game.home.Contains(x, y) {
        game.GameOverWin();
      }
      var waypoint := game.waypoint;
      if waypoint.active {
        x, y := moved.0, moved.1;
        if WithinStep(x, y, waypoint.x, waypoint.y, speed) {
          waypoint.Deactivate();
        }
      }
    }
  }

  /** `TurtleAdventureGame`, with the parts of the game framework it relies on. */
  class TurtleAdventureGame {
    var level: int
    /** Canvas size (`winfo_width`, `winfo_height`), fixed to the screen size. */
    const width: int
    const height: int
    const waypoint: Waypoint
    const home: Home
    const player: Player
    /** The framework's running flag: `stop` clears it. */
    var stopped: bool
    /** The end texts written on the canvas, oldest first. */
    var texts: seq<EndText>
    /** The enemies among the game's elements, in the order they were added. */
    var enemies: seq<Enemy>
    /** The `after(delay, callback)` calls made so far, in order. */
    var timers: seq<Timer>
    var enemyGenerator: EnemyGenerator?

    function Status(): Session
      reads this
    {
      Session(stopped, level, texts)
    }

    /** The canvas is at least 2 x 2, so a split child never lands on the
        origin (see `DupeNotAtOrigin`). */
    predicate CanvasOk()
    {
      width >= 2 && height >= 2
    }

    /** `__init__` and the first part of `init_game`: waypoint, home at
        (width - 100, height // 2) of size 20, and the player's turtle. */
    constructor (screenWidth: int, screenHeight: int, level: int)
      requires screenWidth >= 2 && screenHeight >= 2
      ensures this.level == level && width == screenWidth && height == screenHeight && CanvasOk()
      ensures home == Home(screenWidth - 100, screenHeight / 2, 20)
      ensures fresh(waypoint) && !waypoint.active
      ensures fresh(player) && player.x == 0.0 && player.y == 0.0 && player.speed == 5.0
      ensures !stopped && texts == [] && enemies == [] && timers == [] && enemyGenerator == null
    {
      this.level := level;
      width, height := screenWidth, screenHeight;
      waypoint := new Waypoint();
      home := Home(screenWidth - 100, screenHeight / 2, 20);
      player := new Player(5.0);
      stopped, texts, enemies, timers := false, [], [], [];
      enemyGenerator := null;
    }

    /** Whether a set of opening draws can feed `create_enemy` at `level` with
        the player at (px, py). */
    predicate OpeningOk(draws: OpeningDraws, level: int, px: real, py: real)
    {
      |draws.walkers| == 5 * Count(level) && |draws.bouncers| == Count(level) &&
      (forall k :: 0 <= k < |draws.walkers| ==> WalkerDrawOk(draws.walkers[k], px, py, width, height)) &&
      (forall k :: 0 <= k < |draws.bouncers| ==> Feasible(draws.bouncers[k].spawn, px, py, width, height))
    }

    /** The rest of `init_game`: the enemy generator runs while the turtle is
        still at the origin, and only then is the player moved to
        (50, height // 2). */
    method InitGame(draws: OpeningDraws)
      requires OpeningOk(draws, level, player.x, player.y)
      modifies this, player
      ensures level == old(level)
      ensures enemyGenerator != null && fresh(enemyGenerator) && enemyGenerator.level == level
      ensures |enemies| == |old(enemies)| + 6 * Count(level)
      ensures enemies[..|old(enemies)|] == old(enemies)
      ensures forall k :: 0 <= k < 5 * Count(level) ==>
                enemies[|old(enemies)| + k] ==
                NewWalker(draws.walkers[k], old(player.x), old(player.y), width, height, home)
      ensures forall k :: 0 <= k < Count(level) ==>
                enemies[|old(enemies)| + 5 * Count(level) + k] ==
                NewBouncy(draws.bouncers[k], old(player.x), old(player.y), width, height, home)
      ensures timers == old(timers) + [Timer(600, ChasingEnemies)] + Timers(Count(level), 400)
      ensures player.x == 50.0 && player.y == (height / 2) as real
      ensures Status() == old(Status())
    {
      enemyGenerator := new EnemyGenerator(this, level, draws);
      player.x := 50.0;
      player.y := (height / 2) as real;
    }

    /** `game_over_win`: stop the loop and show "You Win Level <level>". */
    method GameOverWin()
      modifies this`stopped, this`texts
      ensures Status() == Won(old(Status()))
    {
      stopped := true;
      texts := texts + [YouWin(level)];
    }

    /** `game_over_lose`: stop the loop, show "You Lose" and reset the level. */
    method GameOverLose()
      modifies this`stopped, this`texts, this`level
      ensures Status() == Lost(old(Status()))
    {
      stopped := true;
      texts := texts + [YouLose];
      level := 0;
    }

    /** `game.after(delay, callback)`, recorded. */
    method After(delay: int, callback: Callback)
      modifies this`timers
      ensures timers == old(timers) + [Timer(delay, callback)]
    {
      timers := timers + [Timer(delay, callback)];
    }

    /** `add_element` of an enemy, including its `create`. */
    method AddElement(e: Enemy, spawn: seq<Draw>)
      requires NeedsSpawn(e) ==> Feasible(spawn, player.x, player.y, width, height)
      modifies this`enemies
      ensures enemies == old(enemies) + [Created(e, spawn, player.x, player.y, home)]
    {
      var created := e;
      match e.kind {
        case Fencing(_, _, _) =>
          created := e.(x := home.x - FenceDistance, y := home.y - FenceDistance);
        case Demo =>
        case _ =>
          if e.x == 0 && e.y == 0 {
            var x, y := RandomSpawn(player.x, player.y, width, height, spawn);
            created := e.(x := x, y := y);
          }
      }
      enemies := enemies + [created];
    }

    /** `delete_element` of the enemy at index `i`. */
    method DeleteElement(i: nat)
      requires i < |enemies|
      modifies this`enemies
      ensures enemies == old(enemies)[..i] + old(enemies)[i + 1..]
    {
      enemies := enemies[..i] + enemies[i + 1..];
    }

    /** `DemoEnemy.update`. Its `delete` on a hit only erases the drawing; the
        enemy stays among the elements. */
    method UpdateDemo(i: nat)
      requires i < |enemies| && enemies[i].kind.Demo?
      modifies this`enemies, this`stopped, this`texts, this`level
      ensures enemies == old(enemies)[i := DemoStep(old(enemies[i]))]
      ensures Status() == if enemies[i].Hits(player.x, player.y) then Lost(old(Status()))
                          else old(Status())
    {
      var e := enemies[i];
      var x, y := e.x + 1, e.y + 1;
      enemies := enemies[i := e.(x := x, y := y)];
      if HitsPlayer(x, y, e.size, player.x, player.y) {
        GameOverLose();
      }
    }

    /** `RandomWalkEnemy.update`; `redraw` is what `generate_waypoint` draws if
        the enemy arrives. */
    method UpdateRandomWalk(i: nat, redraw: Draw)
      requires i < |enemies| && enemies[i].kind.RandomWalk?
      requires InCanvas(redraw, width, height)
      modifies this`enemies, this`stopped, this`texts, this`level
      ensures enemies == old(enemies)[i := WalkStep(old(enemies[i]), redraw)]
      ensures enemies[i].kind.RandomWalk? &&
              InCanvas((enemies[i].kind.waypointX, enemies[i].kind.waypointY), width, height) <==
              InCanvas((old(enemies[i]).kind.waypointX, old(enemies[i]).kind.waypointY), width, height)
      ensures Status() == if enemies[i].Hits(player.x, player.y) then Lost(old(Status()))
                          else old(Status())
    {
      var e := enemies[i];
      var x, y := e.x, e.y;
      var wx, wy := e.kind.waypointX, e.kind.waypointY;
      if x < wx {
        x := x + 1;
      } else if x > wx {
        x := x - 1;
      }
      if y < wy {
        y := y + 1;
      } else if y > wy {
        y := y - 1;
      }
      if x == wx && y == wy {
        wx, wy := redraw.0, redraw.1;
      }
      enemies := enemies[i := Enemy(x, y, e.size, RandomWalk(wx, wy))];
      if HitsPlayer(x, y, e.size, player.x, player.y) {
        GameOverLose();
      }
    }

    /** `ChasingEnemy.update`. */
    method UpdateChasing(i: nat)
      requires i < |enemies| && enemies[i].kind.Chasing?
      modifies this`enemies, this`stopped, this`texts, this`level
      ensures enemies == old(enemies)[i := ChaseStep(old(enemies[i]), player.x, player.y)]
      ensures Status() == if enemies[i].Hits(player.x, player.y) then Lost(old(Status()))
                          else old(Status())
    {
      var e := enemies[i];
      var px, py := player.x, player.y;
      var speedX, speedY;
      if Abs(px - e.x as real) > 80.0 {
        speedX := 5;
      } else {
        speedX := 2;
      }
      if Abs(py - e.y as real) > 80.0 {
        speedY := 5;
      } else {
        speedY := 2;
      }
      var x, y := e.x, e.y;
      if px > x as real {
        x := x + speedX;
      } else if px < x as real {
        x := x - speedX;
      }
      if py > y as real {
        y := y + speedY;
      } else if py < y as real {
        y := y - speedY;
      }
      enemies := enemies[i := e.(x := x, y := y)];
      if HitsPlayer(x, y, e.size, px, py) {
        GameOverLose();
      }
    }

    /** `FencingEnemy.update`: run the stored handler (`left`, `right`, `up`
        or `down`), then check for a hit. */
    method UpdateFencing(i: nat)
      requires i < |enemies| && enemies[i].kind.Fencing?
      modifies this`enemies, this`stopped, this`texts, this`level
      ensures enemies == old(enemies)[i := FenceStep(old(enemies[i]))]
      ensures Status() == if enemies[i].Hits(player.x, player.y) then Lost(old(Status()))
                          else old(Status())
    {
      var e := enemies[i];
      var x, y, phase := e.x, e.y, e.kind.phase;
      var fx, fy := e.kind.finishX, e.kind.finishY;
      match e.kind.phase {
        case Left =>
          if x == fx - FenceRadius {
            phase := Down;
          }
          x := x - FenceSpeed;
        case Right =>
          if x == fx + FenceRadius {
            phase := Up;
          }
          x := x + FenceSpeed;
        case Up =>
          if y == fy - FenceRadius {
            phase := Left;
          }
          y := y - FenceSpeed;
        case Down =>
          if y == fy + FenceRadius {
            phase := Right;
          }
          y := y + FenceSpeed;
      }
      enemies := enemies[i := Enemy(x, y, e.size, Fencing(phase, fx, fy))];
      if HitsPlayer(x, y, e.size, player.x, player.y) {
        GameOverLose();
      }
    }

    /** `DrunkBouncyEnemy.create_dupe`: add a size-10 child with the given
        handlers, placed one unit inside the edge the parent at (px, py) has
        crossed, by the first test of the chain that holds. */
    method CreateDupe(px: int, py: int, xState: XDir, yState: YDir)
      requires CanvasOk()
      requires px <= 0 || px >= width || py <= 0 || py >= height
      modifies this`enemies
      ensures enemies == old(enemies) + Dupes(px, py, width, height, [(xState, yState)])
    {
      var x, y := 0, 0;
      if px <= 0 {
        x, y := 1, py;
      } else if px >= width {
        x, y := width - 1, py;
      } else if py <= 0 {
        x, y := px, 1;
      } else if py >= height {
        x, y := px, height - 1;
      }
      DupeNotAtOrigin(px, py, width, height);
      AddElement(Enemy(x, y, DupeSize, DrunkBouncy(xState, yState)), []);
    }

    /** The enemies after `delete_element` of the instance at index `i`, if it
        is still `present` there; deleting an absent instance changes nothing. */
    function Removed(s: seq<Enemy>, i: nat, present: bool): seq<Enemy>
      requires present ==> i < |s|
    {
      if present then s[..i] + s[i + 1..] else s
    }

    /** The end of a split handler: two `create_dupe` calls with the direction
        pairs `dirs`, then `delete_element(self)`. */
    method Split(i: nat, present: bool, x: int, y: int, dirs: seq<(XDir, YDir)>)
      requires CanvasOk() && |dirs| == 2
      requires x <= 0 || x >= width || y <= 0 || y >= height
      requires present ==> i < |enemies|
      modifies this`enemies
      ensures enemies == Removed(old(enemies), i, present) + Dupes(x, y, width, height, dirs)
    {
      CreateDupe(x, y, dirs[0].0, dirs[0].1);
      CreateDupe(x, y, dirs[1].0, dirs[1].1);
      DupesPair(x, y, width, height, dirs[0], dirs[1]);
      assert [dirs[0], dirs[1]] == dirs;
      if present {
        RemoveAfterAppend(old(enemies), Dupes(x, y, width, height, dirs), i);
        DeleteElement(i);
      }
    }

    /** `left_state` of the bouncy instance `me`, which sits at index `i` if
        `present`: move left, and split at x <= 0 into two right-going
        children. */
    method LeftState(i: nat, me: Enemy, present: bool) returns (moved: Enemy, stillPresent: bool)
      requires CanvasOk() && (present ==> i < |enemies|)
      modifies this`enemies
      ensures moved == me.(x := me.x - BouncySpeed)
      ensures stillPresent == (present && !(moved.x <= 0))
      ensures enemies == if moved.x <= 0
                         then Removed(old(enemies), i, present) + Dupes(moved.x, moved.y, width, height, XSplitDirs(GoLeft))
                         else old(enemies)
    {
      moved, stillPresent := me.(x := me.x - BouncySpeed), present;
      if moved.x <= 0 {
        Split(i, present, moved.x, moved.y, [(GoRight, GoUp), (GoRight, GoDown)]);
        stillPresent := false;
      }
    }

    /** `right_state`: move right, and split at x >= width into two left-going
        children. */
    method RightState(i: nat, me: Enemy, present: bool) returns (moved: Enemy, stillPresent: bool)
      requires CanvasOk() && (present ==> i < |enemies|)
      modifies this`enemies
      ensures moved == me.(x := me.x + BouncySpeed)
      ensures stillPresent == (present && !(moved.x >= width))
      ensures enemies == if moved.x >= width
                         then Removed(old(enemies), i, present) + Dupes(moved.x, moved.y, width, height, XSplitDirs(GoRight))
                         else old(enemies)
    {
      moved, stillPresent := me.(x := me.x + BouncySpeed), present;
      if moved.x >= width {
        Split(i, present, moved.x, moved.y, [(GoLeft, GoUp), (GoLeft, GoDown)]);
        stillPresent := false;
      }
    }

    /** `up_state`: move up, and split at y <= 0 into two down-going children. */
    method UpState(i: nat, me: Enemy, present: bool) returns (moved: Enemy, stillPresent: bool)
      requires CanvasOk() && (present ==> i < |enemies|)
      modifies this`enemies
      ensures moved == me.(y := me.y - BouncySpeed)
      ensures stillPresent == (present && !(moved.y <= 0))
      ensures enemies == if moved.y <= 0
                         then Removed(old(enemies), i, present) + Dupes(moved.x, moved.y, width, height, YSplitDirs(GoUp))
                         else old(enemies)
    {
      moved, stillPresent := me.(y := me.y - BouncySpeed), present;
      if moved.y <= 0 {
        Split(i, present, moved.x, moved.y, [(GoLeft, GoDown), (GoRight, GoDown)]);
        stillPresent := false;
      }
    }

    /** `down_state`: move down, and split at y >= height into two up-going
        children. */
    method DownState(i: nat, me: Enemy, present: bool) returns (moved: Enemy, stillPresent: bool)
      requires CanvasOk() && (present ==> i < |enemies|)
      modifies this`enemies
      ensures moved == me.(y := me.y + BouncySpeed)
      ensures stillPresent == (present && !(moved.y >= height))
      ensures enemies == if moved.y >= height
                         then Removed(old(enemies), i, present) + Dupes(moved.x, moved.y, width, height, YSplitDirs(GoDown))
                         else old(enemies)
    {
      moved, stillPresent := me.(y := me.y + BouncySpeed), present;
      if moved.y >= height {
        Split(i, present, moved.x, moved.y, [(GoLeft, GoUp), (GoRight, GoUp)]);
        stillPresent := false;
      }
    }

    /** Calling the stored `x_state` handler: `left_state` or `right_state`. */
    method XState(i: nat, me: Enemy, present: bool) returns (moved: Enemy, stillPresent: bool)
      requires CanvasOk() && (present ==> i < |enemies|) && me.kind.DrunkBouncy?
      modifies this`enemies
      ensures moved == me.(x := XMove(me.x, me.kind.xState))
      ensures var split := XSplits(moved.x, me.kind.xState, width);
              stillPresent == (present && !split) &&
              enemies == if split
                         then Removed(old(enemies), i, present) + Dupes(moved.x, moved.y, width, height, XSplitDirs(me.kind.xState))
                         else old(enemies)
    {
      if me.kind.xState == GoLeft {
        moved, stillPresent := LeftState(i, me, present);
      } else {
        moved, stillPresent := RightState(i, me, present);
      }
    }

    /** Calling the stored `y_state` handler: `up_state` or `down_state`. */
    method YState(i: nat, me: Enemy, present: bool) returns (moved: Enemy, stillPresent: bool)
      requires CanvasOk() && (present ==> i < |enemies|) && me.kind.DrunkBouncy?
      modifies this`enemies
      ensures moved == me.(y := YMove(me.y, me.kind.yState))
      ensures var split := YSplits(moved.y, me.kind.yState, height);
              stillPresent == (present && !split) &&
              enemies == if split
                         then Removed(old(enemies), i, present) + Dupes(moved.x, moved.y, width, height, YSplitDirs(me.kind.yState))
                         else old(enemies)
    {
      if me.kind.yState == GoUp {
        moved, stillPresent := UpState(i, me, present);
      } else {
        moved, stillPresent := DownState(i, me, present);
      }
    }

    /** `DrunkBouncyEnemy.update`: `x_state` then `y_state`, each of which may
        split the enemy into two children and delete it. The second handler
        runs on the deleted instance too; deleting it a second time changes
        nothing. The hit test uses the instance's final position either way. */
    method UpdateDrunkBouncy(i: nat)
      requires CanvasOk()
      requires i < |enemies| && enemies[i].kind.DrunkBouncy?
      modifies this`enemies, this`stopped, this`texts, this`level
      ensures var b := BounceStep(old(enemies[i]), width, height);
              enemies == if b.split then old(enemies)[..i] + old(enemies)[i + 1..] + b.children
                         else old(enemies)[i := b.self]
      ensures var b := BounceStep(old(enemies[i]), width, height);
              Status() == if b.self.Hits(player.x, player.y) then Lost(old(Status()))
                          else old(Status())
    {
      ghost var before := enemies;
      var me := enemies[i];
      ghost var b := BounceStep(me, width, height);
      var present := true;
      me, present := XState(i, me, present);
      ghost var xKids := if present then [] else Dupes(me.x, me.y, width, height, XSplitDirs(me.kind.xState));
      assert enemies == Removed(before, i, !present) + xKids;
      ghost var xSplit := !present;
      me, present := YState(i, me, present);
      ghost var yKids := if YSplits(me.y, me.kind.yState, height)
                         then Dupes(me.x, me.y, width, height, YSplitDirs(me.kind.yState)) else [];
      assert b.self == me && b.children == xKids + yKids && b.split == !present;
      assert enemies == Removed(before, i, !present) + (xKids + yKids);
      if present {
        enemies := enemies[i := me];
      }
      if HitsPlayer(me.x, me.y, me.size, player.x, player.y) {
        GameOverLose();
      }
    }
  }

  /** Two `create_dupe` calls in a row add the children of both direction pairs. */
  lemma DupesPair(x: int, y: int, width: int, height: int, a: (XDir, YDir), b: (XDir, YDir))
    ensures Dupes(x, y, width, height, [a]) + Dupes(x, y, width, height, [b]) ==
            Dupes(x, y, width, height, [a, b])
  {
  }

  /** Deleting an element that precedes the appended ones keeps the appended ones. */
  lemma RemoveAfterAppend(s: seq<Enemy>, t: seq<Enemy>, i: nat)
    requires i < |s|
    ensures (s + t)[..i] + (s + t)[i + 1..] == s[..i] + s[i + 1..] + t
  {
    assert (s + t)[..i] == s[..i];
    assert (s + t)[i + 1..] == s[i + 1..] + t;
  }

  /** One more batch of `n` draws still fits in five batches. */
  lemma NextBatch(batch: nat, n: nat)
    requires batch < 5
    ensures batch * n + n == (batch + 1) * n <= 5 * n
  {
  }

  /** The walkers a series of `create_random_enemy` rounds adds, one per
      draw, in order. */
  function NewWalkers(ds: seq<WalkerDraw>, px: real, py: real, width: int, height: int, home: Home): (r: seq<Enemy>)
    requires WalkerDrawsOk(ds, px, py, width, height)
    ensures |r| == |ds|
    decreases |ds|
  {
    if |ds| == 0 then []
    else NewWalkers(ds[..|ds| - 1], px, py, width, height, home) + [NewWalker(ds[|ds| - 1], px, py, width, height, home)]
  }

  /** `after` is `before` followed by the walkers of the usable draws `ds`,
      in order. */
  predicate WalkersAppended(after: seq<Enemy>, before: seq<Enemy>, ds: seq<WalkerDraw>,
                            px: real, py: real, width: int, height: int, home: Home)
  {
    WalkerDrawsOk(ds, px, py, width, height) && after == before + NewWalkers(ds, px, py, width, height, home)
  }

  /** The k-th walker is the one made from the k-th set of draws. */
  lemma {:induction false} NewWalkersAt(ds: seq<WalkerDraw>, px: real, py: real, width: int, height: int,
                                        home: Home, k: nat)
    requires WalkerDrawsOk(ds, px, py, width, height)
    requires k < |ds|
    ensures WalkerDrawOk(ds[k], px, py, width, height)
    ensures NewWalkers(ds, px, py, width, height, home)[k] == NewWalker(ds[k], px, py, width, height, home)
    decreases |ds|
  {
    if k < |ds| - 1 {
      NewWalkersAt(ds[..|ds| - 1], px, py, width, height, home, k);
    }
  }

  /** A prefix of usable draws is usable. */
  lemma {:induction false} WalkerDrawsPrefix(ds: seq<WalkerDraw>, j: nat, px: real, py: real, width: int, height: int)
    requires j <= |ds|
    requires WalkerDrawsOk(ds, px, py, width, height)
    ensures WalkerDrawsOk(ds[..j], px, py, width, height)
    decreases |ds|
  {
    if j < |ds| {
      var init := ds[..|ds| - 1];
      assert init[..j] == ds[..j];
      WalkerDrawsPrefix(init, j, px, py, width, height);
    } else {
      assert ds[..j] == ds;
    }
  }

  /** A suffix of usable draws is usable. */
  lemma {:induction false} WalkerDrawsSuffix(ds: seq<WalkerDraw>, i: nat, px: real, py: real, width: int, height: int)
    requires i <= |ds|
    requires WalkerDrawsOk(ds, px, py, width, height)
    ensures WalkerDrawsOk(ds[i..], px, py, width, height)
    decreases |ds|
  {
    if i < |ds| {
      var init := ds[..|ds| - 1];
      WalkerDrawsSuffix(init, i, px, py, width, height);
      assert ds[i..][..|ds[i..]| - 1] == init[i..];
      assert ds[i..][|ds[i..]| - 1] == ds[|ds| - 1];
    } else {
      assert |ds[i..]| == 0;
    }
  }

  /** Cutting usable draws at `i` and `j` gives usable runs that make up the
      prefix up to `j`. */
  lemma WalkerDrawsSplit(ds: seq<WalkerDraw>, i: nat, j: nat, px: real, py: real, width: int, height: int)
    requires i <= j <= |ds|
    requires WalkerDrawsOk(ds, px, py, width, height)
    ensures ds[..j] == ds[..i] + ds[i..j]
    ensures WalkerDrawsOk(ds[..i], px, py, width, height)
    ensures WalkerDrawsOk(ds[i..j], px, py, width, height)
  {
    WalkerDrawsPrefix(ds, i, px, py, width, height);
    WalkerDrawsPrefix(ds, j, px, py, width, height);
    WalkerDrawsSuffix(ds[..j], i, px, py, width, height);
    assert ds[..j][i..] == ds[i..j];
  }

  /** Consecutive runs of usable draws make a usable run. */
  lemma {:induction false} WalkerDrawsAppend(a: seq<WalkerDraw>, b: seq<WalkerDraw>, px: real, py: real,
                                             width: int, height: int)
    requires WalkerDrawsOk(a, px, py, width, height)
    requires WalkerDrawsOk(b, px, py, width, height)
    ensures WalkerDrawsOk(a + b, px, py, width, height)
    decreases |b|
  {
    if |b| == 0 {
      assert a + b == a;
    } else {
      var b' := b[..|b| - 1];
      assert (a + b)[..|a + b| - 1] == a + b';
      assert (a + b)[|a + b| - 1] == b[|b| - 1];
      WalkerDrawsAppend(a, b', px, py, width, height);
    }
  }

  /** Walkers of consecutive draw runs are concatenated. */
  lemma {:induction false} NewWalkersAppend(a: seq<WalkerDraw>, b: seq<WalkerDraw>, px: real, py: real,
                                            width: int, height: int, home: Home)
    requires WalkerDrawsOk(a, px, py, width, height)
    requires WalkerDrawsOk(b, px, py, width, height)
    ensures WalkerDrawsOk(a + b, px, py, width, height)
    ensures NewWalkers(a + b, px, py, width, height, home) ==
            NewWalkers(a, px, py, width, height, home) + NewWalkers(b, px, py, width, height, home)
    decreases |b|
  {
    WalkerDrawsAppend(a, b, px, py, width, height);
    if |b| == 0 {
      assert a + b == a;
    } else {
      var b' := b[..|b| - 1];
      var last := NewWalker(b[|b| - 1], px, py, width, height, home);
      assert (a + b)[..|a + b| - 1] == a + b';
      assert (a + b)[|a + b| - 1] == b[|b| - 1];
      NewWalkersAppend(a, b', px, py, width, height, home);
      assert NewWalkers(a + b, px, py, width, height, home) == NewWalkers(a + b', px, py, width, height, home) + [last];
      assert NewWalkers(b, px, py, width, height, home) == NewWalkers(b', px, py, width, height, home) + [last];
      AppendAssoc(NewWalkers(a, px, py, width, height, home), NewWalkers(b', px, py, width, height, home), [last]);
    }
  }

  /** Appending the walkers of the draws from `i` to `j` to those of the
      draws before `i` gives the walkers of the draws before `j`. */
  lemma NewWalkersStep(start: seq<Enemy>, before: seq<Enemy>, after: seq<Enemy>, ds: seq<WalkerDraw>, i: nat, j: nat,
                       px: real, py: real, width: int, height: int, home: Home)
    requires i <= j <= |ds|
    requires WalkerDrawsOk(ds, px, py, width, height)
    requires WalkersAppended(before, start, ds[..i], px, py, width, height, home)
    requires WalkersAppended(after, before, ds[i..j], px, py, width, height, home)
    ensures WalkersAppended(after, start, ds[..j], px, py, width, height, home)
  {
    WalkerDrawsSplit(ds, i, j, px, py, width, height);
    NewWalkersAppend(ds[..i], ds[i..j], px, py, width, height, home);
    AppendAssoc(start, NewWalkers(ds[..i], px, py, width, height, home), NewWalkers(ds[i..j], px, py, width, height, home));
  }

  /** The enemies after a run of walkers: the old ones, then one walker per
      set of draws, in order. */
  lemma NewWalkersIndexed(start: seq<Enemy>, after: seq<Enemy>, ds: seq<WalkerDraw>,
                          px: real, py: real, width: int, height: int, home: Home)
    requires WalkersAppended(after, start, ds, px, py, width, height, home)
    ensures |after| == |start| + |ds|
    ensures after[..|start|] == start
    ensures forall k :: 0 <= k < |ds| ==>
              WalkerDrawOk(ds[k], px, py, width, height) &&
              after[|start| + k] == NewWalker(ds[k], px, py, width, height, home)
  {
    forall k | 0 <= k < |ds|
      ensures WalkerDrawOk(ds[k], px, py, width, height) &&
              after[|start| + k] == NewWalker(ds[k], px, py, width, height, home)
    {
      NewWalkersAt(ds, px, py, width, height, home, k);
    }
  }

  lemma AppendAssoc<T>(a: seq<T>, b: seq<T>, c: seq<T>)
    ensures (a + b) + c == a + (b + c)
  {
  }

  /** `EnemyGenerator`: creates the opening enemies at once and schedules the
      rest through `game.after`. */
  class EnemyGenerator {
    const game: TurtleAdventureGame
    const level: int

    /** `__init__`, which runs `create_enemy` with the player where it stands. */
    constructor (game: TurtleAdventureGame, level: int, draws: OpeningDraws)
      requires game.OpeningOk(draws, level, game.player.x, game.player.y)
      modifies game`enemies, game`timers
      ensures this.game == game && this.level == level
      ensures |game.enemies| == |old(game.enemies)| + 6 * Count(level)
      ensures game.enemies[..|old(game.enemies)|] == old(game.enemies)
      ensures forall k :: 0 <= k < 5 * Count(level) ==>
                game.enemies[|old(game.enemies)| + k] ==
                NewWalker(draws.walkers[k], game.player.x, game.player.y, game.width, game.height, game.home)
      ensures forall k :: 0 <= k < Count(level) ==>
                game.enemies[|old(game.enemies)| + 5 * Count(level) + k] ==
                NewBouncy(draws.bouncers[k], game.player.x, game.player.y, game.width, game.height, game.home)
      ensures game.timers == old(game.timers) + [Timer(600, ChasingEnemies)] + Timers(Count(level), 400)
    {
      this.game := game;
      this.level := level;
      new;
      CreateEnemy(draws);
    }

    /** `create_enemy`: five random batches, the chasing batch scheduled at 600,
        the drunk-bouncy batch, then for each round below the level a random
        batch at `timer` and a fencing enemy at `timer // 2`, doubling `timer`
        from 400. */
    method CreateEnemy(draws: OpeningDraws)
      requires game.OpeningOk(draws, level, game.player.x, game.player.y)
      modifies game`enemies, game`timers
      ensures |game.enemies| == |old(game.enemies)| + 6 * Count(level)
      ensures game.enemies[..|old(game.enemies)|] == old(game.enemies)
      ensures forall k :: 0 <= k < 5 * Count(level) ==>
                game.enemies[|old(game.enemies)| + k] ==
                NewWalker(draws.walkers[k], game.player.x, game.player.y, game.width, game.height, game.home)
      ensures forall k :: 0 <= k < Count(level) ==>
                game.enemies[|old(game.enemies)| + 5 * Count(level) + k] ==
                NewBouncy(draws.bouncers[k], game.player.x, game.player.y, game.width, game.height, game.home)
      ensures game.timers == old(game.timers) + [Timer(600, ChasingEnemies)] + Timers(Count(level), 400)
    {
      CreateRandomBatches(draws.walkers);
      game.After(600, ChasingEnemies);
      ghost var walked := game.enemies;
      CreateMyEnemy(draws.bouncers);
      assert game.enemies[..|walked|] == walked;
      ScheduleRounds();
    }

    /** The first loop of `create_enemy`: five `create_random_enemy` batches,
        each taking the next `level` walker draws. */
    method CreateRandomBatches(walkers: seq<WalkerDraw>)
      requires |walkers| == 5 * Count(level)
      requires forall k :: 0 <= k < |walkers| ==>
                 WalkerDrawOk(walkers[k], game.player.x, game.player.y, game.width, game.height)
      modifies game`enemies
      ensures |game.enemies| == |old(game.enemies)| + 5 * Count(level)
      ensures game.enemies[..|old(game.enemies)|] == old(game.enemies)
      ensures forall k :: 0 <= k < |walkers| ==>
                game.enemies[|old(game.enemies)| + k] ==
                NewWalker(walkers[k], game.player.x, game.player.y, game.width, game.height, game.home)
    {
      var n := Count(level);
      ghost var px, py := game.player.x, game.player.y;
      WalkerDrawsOkIff(walkers, px, py, game.width, game.height);
      var batch := 0;
      var done := 0;
      while batch < 5
        invariant 0 <= batch <= 5 && done == batch * n
        invariant game.player.x == px && game.player.y == py
        invariant WalkersAppended(game.enemies, old(game.enemies), walkers[..done], px, py, game.width, game.height, game.home)
      {
        NextBatch(batch, n);
        RandomBatch(walkers, done, old(game.enemies), px, py);
        done := done + n;
        batch := batch + 1;
      }
      assert done == |walkers| && walkers[..done] == walkers;
      NewWalkersIndexed(old(game.enemies), game.enemies, walkers, px, py, game.width, game.height, game.home);
    }

    /** One batch of the first loop of `create_enemy`: the draws from `done`
        on make the next `level` walkers. */
    method RandomBatch(walkers: seq<WalkerDraw>, done: nat, ghost start: seq<Enemy>, ghost px: real, ghost py: real)
      requires game.player.x == px && game.player.y == py
      requires done + Count(level) <= |walkers|
      requires WalkerDrawsOk(walkers, px, py, game.width, game.height)
      requires WalkersAppended(game.enemies, start, walkers[..done], px, py, game.width, game.height, game.home)
      modifies game`enemies
      ensures game.player.x == px && game.player.y == py
      ensures WalkersAppended(game.enemies, start, walkers[..done + Count(level)], px, py, game.width, game.height, game.home)
    {
      var chunk := walkers[done..done + Count(level)];
      WalkerDrawsSplit(walkers, done, done + Count(level), px, py, game.width, game.height);
      CreateRandomEnemy(chunk, px, py);
      NewWalkersStep(start, old(game.enemies), game.enemies, walkers, done, done + Count(level), px, py, game.width, game.height, game.home);
    }

    /** The second loop of `create_enemy`: for each round below the level, a
        random batch at `timer` and a fencing enemy at `timer // 2`, doubling
        `timer` from 400. */
    method ScheduleRounds()
      modifies game`timers
      ensures game.timers == old(game.timers) + Timers(Count(level), 400)
    {
      var n := Count(level);
      var timer := 400;
      var i := 0;
      while i < level
        invariant 0 <= i <= n
        invariant game.timers + Timers(n - i, timer) == old(game.timers) + Timers(n, 400)
        decreases level - i
      {
        game.After(timer, RandomEnemies);
        game.After(timer / 2, FencingEnemy);
        timer := timer + timer;
        i := i + 1;
      }
    }

    /** `create_my_enemy`: one drunk-bouncy enemy of size 10 per level. */
    method CreateMyEnemy(draws: seq<BouncyDraw>)
      requires |draws| == Count(level)
      requires forall k :: 0 <= k < |draws| ==>
                 Feasible(draws[k].spawn, game.player.x, game.player.y, game.width, game.height)
      modifies game`enemies
      ensures |game.enemies| == |old(game.enemies)| + Count(level)
      ensures game.enemies[..|old(game.enemies)|] == old(game.enemies)
      ensures forall k :: 0 <= k < |draws| ==>
                game.enemies[|old(game.enemies)| + k] ==
                NewBouncy(draws[k], game.player.x, game.player.y, game.width, game.height, game.home)
    {
      var i := 0;
      while i < level
        invariant 0 <= i <= |draws|
        invariant |game.enemies| == |old(game.enemies)| + i
        invariant game.enemies[..|old(game.enemies)|] == old(game.enemies)
        invariant forall k :: 0 <= k < i ==>
                    game.enemies[|old(game.enemies)| + k] ==
                    NewBouncy(draws[k], game.player.x, game.player.y, game.width, game.height, game.home)
        decreases level - i
      {
        game.AddElement(Enemy(0, 0, DupeSize, DrunkBouncy(draws[i].xState, draws[i].yState)), draws[i].spawn);
        i := i + 1;
      }
    }

    /** `create_random_enemy`: one random-walk enemy of size 20, 30 or 40 per
        level. */
    method CreateRandomEnemy(draws: seq<WalkerDraw>, ghost px: real, ghost py: real)
      requires game.player.x == px && game.player.y == py
      requires |draws| == Count(level)
      requires WalkerDrawsOk(draws, px, py, game.width, game.height)
      modifies game`enemies
      ensures game.player.x == px && game.player.y == py
      ensures WalkersAppended(game.enemies, old(game.enemies), draws, px, py, game.width, game.height, game.home)
    {
      var i := 0;
      while i < level
        invariant 0 <= i <= |draws|
        invariant game.player.x == px && game.player.y == py
        invariant WalkersAppended(game.enemies, old(game.enemies), draws[..i], px, py, game.width, game.height, game.home)
        decreases level - i
      {
        var d := draws[i];
        NewWalkersAt(draws, px, py, game.width, game.height, game.home, i);
        game.AddElement(Enemy(0, 0, WalkerSizes[d.size], RandomWalk(d.waypoint.0, d.waypoint.1)), d.spawn);
        assert draws[..i + 1][..i] == draws[..i];
        i := i + 1;
      }
      assert draws[..i] == draws;
    }

    /** `create_chasing_enemy`: `int(level / 2)` chasing enemies of size 20, 30
        or 40. */
    method CreateChasingEnemy(draws: seq<ChaserDraw>)
      requires |draws| == ChaserCount(level)
      requires forall k :: 0 <= k < |draws| ==>
                 Feasible(draws[k].spawn, game.player.x, game.player.y, game.width, game.height)
      modifies game`enemies
      ensures |game.enemies| == |old(game.enemies)| + ChaserCount(level)
      ensures game.enemies[..|old(game.enemies)|] == old(game.enemies)
      ensures forall k :: 0 <= k < |draws| ==>
                game.enemies[|old(game.enemies)| + k] ==
                NewChaser(draws[k], game.player.x, game.player.y, game.width, game.height, game.home)
    {
      var i := 0;
      var n := ChaserCount(level);
      while i < n
        invariant 0 <= i <= n
        invariant |game.enemies| == |old(game.enemies)| + i
        invariant game.enemies[..|old(game.enemies)|] == old(game.enemies)
        invariant forall k :: 0 <= k < i ==>
                    game.enemies[|old(game.enemies)| + k] ==
                    NewChaser(draws[k], game.player.x, game.player.y, game.width, game.height, game.home)
      {
        var d := draws[i];
        game.AddElement(Enemy(0, 0, WalkerSizes[d.size], Chasing), d.spawn);
        i := i + 1;
      }
    }

    /** `create_fencing_enemy`: one fencing enemy of size 20, patrolling the
        game's home, placed by its `create` at home - 40. */
    method CreateFencingEnemy()
      modifies game`enemies
      ensures game.enemies == old(game.enemies) + [FenceStart(20, game.home.x, game.home.y)]
    {
      game.AddElement(Enemy(0, 0, 20, Fencing(Down, game.home.x, game.home.y)), []);
    }
  }
}
