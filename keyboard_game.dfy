/**
 * The keyboard two-snake game of frontend/component/Snake.jsx. The React
 * component keeps its game in `useState` slots that its callbacks update
 * through setters; here the slots are the fields of class `SnakeGame`, and
 * each callback is a method tied to a pure function of the old state
 * (`KeyDown`, `Fresh`, `TimerStep`, `Tick`). The rules are those of the
 * bot-driven game on a 20 x 20 grid with a 30 second timer, except that a
 * collision of one snake alone is credited to that snake's own player.
 */
module KeyboardGame {
  import opened Wrappers
  import opened SnakeRules
  import BotGame

  const GRID_SIZE := 20
  const INITIAL_LENGTH := 4
  const GAME_DURATION := 30

  datatype State = State(
    board: Board,
    dir1: Direction, dir2: Direction,
    gameOver: bool, winner: Winner, gameStarted: bool, timer: int)

  /** `wrapPosition` on the 20 x 20 torus. */
  function WrapPosition(p: Pos): (r: Pos)
    ensures -GRID_SIZE <= p.x ==> 0 <= r.x < GRID_SIZE
    ensures -GRID_SIZE <= p.y ==> 0 <= r.y < GRID_SIZE
    ensures 0 <= p.x < GRID_SIZE ==> r.x == p.x
    ensures 0 <= p.y < GRID_SIZE ==> r.y == p.y
    ensures p.x == -1 ==> r.x == GRID_SIZE - 1
    ensures p.x == GRID_SIZE ==> r.x == 0
    ensures p.y == -1 ==> r.y == GRID_SIZE - 1
    ensures p.y == GRID_SIZE ==> r.y == 0
  {
    Wrap(p, GRID_SIZE)
  }

  /** `INITIAL_SNAKE1` (column 5) and `INITIAL_SNAKE2` (column 15): head at row 10, body upwards. */
  function InitialSnake(col: int): seq<Pos>
  {
    seq(INITIAL_LENGTH, i => Pos(col, 10 - i))
  }

  /** What `createFood([INITIAL_SNAKE1, INITIAL_SNAKE2])` can return. */
  predicate FreshFoodFree(food: Pos)
  {
    InGrid(food, GRID_SIZE) && food !in InitialSnake(5) && food !in InitialSnake(15)
  }

  /** The state `restartGame` sets, which is also the state after mounting. */
  function Fresh(food: Pos): State
  {
    State(Board(InitialSnake(5), InitialSnake(15), food, 0, 0), Down, Down, false, NoWinner, false, GAME_DURATION)
  }

  /** `restartGame` restores both initial snakes heading down, zero scores, no winner, a game not yet started and a full 30 second timer. */
  lemma FreshSetsUp(food: Pos)
    requires FreshFoodFree(food)
    ensures var r := Fresh(food);
      && |r.board.snake1| == INITIAL_LENGTH && |r.board.snake2| == INITIAL_LENGTH
      && r.board.snake1[0] == Pos(5, 10) && r.board.snake2[0] == Pos(15, 10)
      && (forall i :: 0 <= i < INITIAL_LENGTH ==> r.board.snake1[i].x == 5 && r.board.snake2[i].x == 15)
      && r.dir1 == Down && r.dir2 == Down
      && r.board.score1 == 0 && r.board.score2 == 0
      && !r.gameOver && r.winner == NoWinner && !r.gameStarted && r.timer == 30
      && r.board.food == food
      && Valid(r)
  {
    assert InitialSnake(5)[0] == Pos(5, 10);
  }

  function LowerChar(c: char): char
  {
    if 'A' <= c <= 'Z' then (c as int - 'A' as int + 'a' as int) as char else c
  }

  /**
   * `String.prototype.toLowerCase` on the letters A-Z; no other character
   * lowers to a letter used by the key names below.
   */
  function LowerAscii(key: string): (r: string)
    ensures |r| == |key|
    ensures forall i :: 0 <= i < |r| ==> !('A' <= r[i] <= 'Z')
    ensures forall i :: 0 <= i < |r| ==> LowerChar(r[i]) == LowerChar(key[i])
    ensures forall i :: 0 <= i < |r| && !('A' <= key[i] <= 'Z') ==> r[i] == key[i]
  {
    seq(|key|, i requires 0 <= i < |key| => LowerChar(key[i]))
  }

  /** Lower-casing a lower-cased key changes nothing. */
  lemma LowerAsciiIdempotent(key: string)
    ensures LowerAscii(LowerAscii(key)) == LowerAscii(key)
  {
    var k := LowerAscii(key);
    assert forall i :: 0 <= i < |k| ==> LowerAscii(k)[i] == k[i];
  }

  /** Which snake a key steers, and where: w/a/s/d steer snake 1, the arrow keys snake 2. */
  function KeyTarget(key: string): Option<(int, Direction)>
  {
    var k := LowerAscii(key);
    if k == "w" then Some((1, Up))
    else if k == "s" then Some((1, Down))
    else if k == "a" then Some((1, Left))
    else if k == "d" then Some((1, Right))
    else if k == "arrowup" then Some((2, Up))
    else if k == "arrowdown" then Some((2, Down))
    else if k == "arrowleft" then Some((2, Left))
    else if k == "arrowright" then Some((2, Right))
    else None
  }

  /** `handleKeyDown`. */
  function KeyDown(s: State, key: string): State
  {
    if s.gameOver then s
    else
      var t := s.(gameStarted := true);
      match KeyTarget(key)
      case Some((1, wanted)) => t.(dir1 := TurnTo(s.dir1, wanted))
      case Some((_, wanted)) => t.(dir2 := TurnTo(s.dir2, wanted))
      case None => t
  }

  /**
   * A key does nothing once the game is over; otherwise any key starts the
   * game; a key of snake 1 turns `dir1` towards its direction unless that
   * is the reverse of `dir1`, and leaves `dir2`; a key of snake 2 does the
   * same to `dir2`; other keys turn neither. No key sets a direction to the
   * exact reverse of the one it replaces.
   */
  lemma KeyDownRule(s: State, key: string)
    ensures var r := KeyDown(s, key);
      && (s.gameOver ==> r == s)
      && (!s.gameOver ==> r.gameStarted)
      && r.board == s.board && r.timer == s.timer && r.winner == s.winner && r.gameOver == s.gameOver
      && r.dir1 != Opposite(s.dir1) && r.dir2 != Opposite(s.dir2)
      && (KeyTarget(key).Some? && KeyTarget(key).value.0 == 1 ==> r.dir2 == s.dir2)
      && (KeyTarget(key).Some? && KeyTarget(key).value.0 == 2 ==> r.dir1 == s.dir1)
      && (forall w :: !s.gameOver && KeyTarget(key) == Some((1, w)) ==>
            r == s.(gameStarted := true, dir1 := TurnTo(s.dir1, w)))
      && (forall w :: !s.gameOver && KeyTarget(key) == Some((2, w)) ==>
            r == s.(gameStarted := true, dir2 := TurnTo(s.dir2, w)))
      && (KeyTarget(key).None? ==> r.dir1 == s.dir1 && r.dir2 == s.dir2)
  {
    TurnToRefusesReversal(s.dir1, Up);
    TurnToRefusesReversal(s.dir1, Down);
    TurnToRefusesReversal(s.dir1, Left);
    TurnToRefusesReversal(s.dir1, Right);
    TurnToRefusesReversal(s.dir2, Up);
    TurnToRefusesReversal(s.dir2, Down);
    TurnToRefusesReversal(s.dir2, Left);
    TurnToRefusesReversal(s.dir2, Right);
  }

  /** Keys are matched after lower-casing: two keys that differ only in the case of their letters steer alike. */
  lemma KeysIgnoreCase(a: string, b: string)
    requires |a| == |b| && forall i :: 0 <= i < |a| ==> LowerChar(a[i]) == LowerChar(b[i])
    ensures KeyTarget(a) == KeyTarget(b)
  {
    assert LowerAscii(a) == LowerAscii(b);
  }

  /** The key names as the browser reports them: "W" steers like "w", "ArrowUp" like "arrowup". */
  lemma ShiftedKeysSteer()
    ensures KeyTarget("W") == KeyTarget("w") == Some((1, Up))
    ensures KeyTarget("ArrowUp") == KeyTarget("arrowup") == Some((2, Up))
  {
    assert LowerAscii("W") == "w";
    assert LowerAscii("ArrowUp") == "arrowup";
  }

  /** The key that steers snake 1 in direction `d`. */
  function Snake1Key(d: Direction): (r: string)
    ensures KeyTarget(r) == Some((1, d))
  {
    var k := match d case Up => "w" case Down => "s" case Left => "a" case Right => "d";
    assert LowerAscii(k) == k;
    k
  }

  /**
   * Two key presses between two moves reverse snake 1: a quarter turn, then
   * the reverse of the starting direction. Each press is checked against the
   * direction the previous press set, not the one the snake moved in.
   */
  lemma TwoKeysReverse(s: State)
    requires !s.gameOver
    ensures KeyDown(KeyDown(s, Snake1Key(Clockwise(s.dir1))), Snake1Key(Opposite(s.dir1))).dir1 == Opposite(s.dir1)
  {
    TwoTurnsReverse(s.dir1);
  }

  /**
   * One timer tick: none while the game is not running (no interval is
   * installed); at one second or less the timer is set to 0 and the game
   * ends decided by score; otherwise one second is taken off.
   */
  function TimerStep(s: State): State
  {
    if !s.gameStarted || s.gameOver then s
    else if s.timer <= 1 then s.(timer := 0, gameOver := true, winner := ByScore(s.board.score1, s.board.score2))
    else s.(timer := s.timer - 1)
  }

  /** `k` timer ticks in a row. */
  function TimerRun(s: State, k: nat): State
    decreases k
  {
    if k == 0 then s else TimerRun(TimerStep(s), k - 1)
  }

  /**
   * A running game with `t` seconds left is still running after fewer than
   * `t` ticks, and after exactly `t` it is over at timer 0 with the winner
   * decided by score.
   */
  lemma {:induction false} CountdownEndsGame(s: State, k: nat)
    requires s.gameStarted && !s.gameOver && 0 < k <= s.timer
    decreases k
    ensures var r := TimerRun(s, k);
      && r.timer == s.timer - k && r.board == s.board
      && (k < s.timer ==> !r.gameOver && r.winner == s.winner)
      && (k == s.timer ==> r.gameOver && r.winner == ByScore(s.board.score1, s.board.score2))
  {
    var n := TimerStep(s);
    if k > 1 {
      assert n.gameStarted && !n.gameOver && n.timer == s.timer - 1;
      CountdownEndsGame(n, k - 1);
    }
  }

  /** The winner the game loop sets when a collision ends the game. */
  function CollisionWinner(c: Crash, score1: int, score2: int): Winner
  {
    if c.Mutual() then ByScore(score1, score2)
    else if c.Snake1() then Player1
    else Player2
  }

  predicate TickReady(s: State, freshFood: Pos)
  {
    Movable(s.board) && FreshFoodOk(s.board, s.dir1, s.dir2, GRID_SIZE, freshFood)
  }

  /** One run of the game-loop interval; none while the game is not running. */
  function Tick(s: State, freshFood: Pos): State
    requires TickReady(s, freshFood)
  {
    if s.gameOver || !s.gameStarted then s
    else
      var c := CrashOf(s.board, s.dir1, s.dir2, GRID_SIZE);
      if c.Any() then s.(gameOver := true, winner := CollisionWinner(c, s.board.score1, s.board.score2))
      else s.(board := Moved(s.board, s.dir1, s.dir2, GRID_SIZE, freshFood))
  }

  /**
   * In a running game a collision ends the game with the snakes where they
   * were: a double crash or a head-on meeting is decided by score, a crash
   * of snake 1 alone goes to player 1, a crash of snake 2 alone to player 2.
   */
  lemma TickCollision(s: State, freshFood: Pos)
    requires TickReady(s, freshFood) && s.gameStarted && !s.gameOver
    requires CrashOf(s.board, s.dir1, s.dir2, GRID_SIZE).Any()
    ensures var c := CrashOf(s.board, s.dir1, s.dir2, GRID_SIZE);
      var r := Tick(s, freshFood);
      && r.gameOver && r.board == s.board && r.dir1 == s.dir1 && r.dir2 == s.dir2 && r.timer == s.timer
      && (c.Mutual() ==> r.winner == ByScore(s.board.score1, s.board.score2))
      && (c.Snake1() && !c.Snake2() && !c.headOn ==> r.winner == Player1)
      && (c.Snake2() && !c.Snake1() && !c.headOn ==> r.winner == Player2)
  {
  }

  /** In a running game without a collision only the board changes, by the grow-or-move rule; a game not running does not move. */
  lemma TickMove(s: State, freshFood: Pos)
    requires TickReady(s, freshFood)
    ensures s.gameOver || !s.gameStarted ==> Tick(s, freshFood) == s
    ensures s.gameStarted && !s.gameOver && !CrashOf(s.board, s.dir1, s.dir2, GRID_SIZE).Any() ==>
      var r := Tick(s, freshFood);
      && r == s.(board := Moved(s.board, s.dir1, s.dir2, GRID_SIZE, freshFood))
      && r.board.snake1[0] == WrapPosition(Step(s.board.snake1[0], s.dir1))
      && r.board.snake2[0] == WrapPosition(Step(s.board.snake2[0], s.dir2))
      && !r.gameOver
  {
  }

  /** The board invariant of the 20 x 20 game with snakes of initial length 4. */
  predicate Valid(s: State)
  {
    BoardOk(s.board, GRID_SIZE, INITIAL_LENGTH)
  }

  /** Every operation keeps the board invariant. */
  lemma OperationsKeepValid(s: State, key: string, food: Pos, freshFood: Pos)
    requires Valid(s) && FreshFoodFree(food)
    ensures TickReady(s, freshFood) ==> Valid(Tick(s, freshFood))
    ensures Valid(KeyDown(s, key)) && Valid(TimerStep(s)) && Valid(Fresh(food))
  {
    if TickReady(s, freshFood) && s.gameStarted && !s.gameOver && !CrashOf(s.board, s.dir1, s.dir2, GRID_SIZE).Any() {
      MovedKeepsBoardOk(s.board, s.dir1, s.dir2, GRID_SIZE, INITIAL_LENGTH, freshFood);
    }
    FreshSetsUp(food);
  }

  /**
   * The two files disagree on a single collision: for every crash of one
   * snake alone, Frontend/game.js credits the other player and Snake.jsx
   * credits the crashing snake's own player; they agree on a double crash
   * and on a head-on meeting.
   */
  lemma WinnerRulesDisagree(c: Crash, score1: int, score2: int)
    requires c.Any()
    ensures c.Mutual() ==> CollisionWinner(c, score1, score2) == BotGame.CollisionWinner(c, score1, score2)
    ensures !c.Mutual() && c.Snake1() ==>
      CollisionWinner(c, score1, score2) == Player1 && BotGame.CollisionWinner(c, score1, score2) == Player2
    ensures !c.Mutual() && !c.Snake1() ==>
      CollisionWinner(c, score1, score2) == Player2 && BotGame.CollisionWinner(c, score1, score2) == Player1
  {
  }

  /**
   * A valid state (the board invariant holds): snake 1 turns right into
   * the body of snake 2 while snake 2 moves on freely. Snake.jsx declares player 1 the winner,
   * Frontend/game.js, from the same snakes and directions, player 2.
   */
  lemma SingleCrashExample()
    ensures var b := Board([Pos(5, 10), Pos(5, 9), Pos(5, 8), Pos(5, 7)],
                           [Pos(6, 12), Pos(6, 11), Pos(6, 10), Pos(6, 9)], Pos(0, 0), 0, 0);
      var k := State(b, Right, Down, false, NoWinner, true, 30);
      var g := BotGame.State(b, Right, Down, false, NoWinner, true, 60, None, None);
      && Valid(k) && BotGame.Valid(g)
      && TickReady(k, Pos(0, 0)) && BotGame.TickReady(g, Pos(0, 0))
      && CrashOf(b, Right, Down, GRID_SIZE) == Crash(false, true, false, false, false)
      && CrashOf(b, Right, Down, BotGame.GRID_SIZE) == Crash(false, true, false, false, false)
      && Tick(k, Pos(0, 0)).winner == Player1
      && BotGame.Tick(g, Pos(0, 0)).winner == Player2
  {
    var b := Board([Pos(5, 10), Pos(5, 9), Pos(5, 8), Pos(5, 7)],
                   [Pos(6, 12), Pos(6, 11), Pos(6, 10), Pos(6, 9)], Pos(0, 0), 0, 0);
    assert NewHead(b.snake1, Right, GRID_SIZE) == Pos(6, 10);
    assert NewHead(b.snake2, Down, GRID_SIZE) == Pos(6, 13);
    assert NewHead(b.snake1, Right, BotGame.GRID_SIZE) == Pos(6, 10);
    assert NewHead(b.snake2, Down, BotGame.GRID_SIZE) == Pos(6, 13);
    assert b.snake2[1..][1] == Pos(6, 10);
  }

  class SnakeGame {
    var snake1: seq<Pos>
    var snake2: seq<Pos>
    var dir1: Direction
    var dir2: Direction
    var food: Pos
    var score1: int
    var score2: int
    var gameOver: bool
    var winner: Winner
    var gameStarted: bool
    var timer: int

    ghost function Snapshot(): State
      reads this
    {
      State(Board(snake1, snake2, food, score1, score2), dir1, dir2, gameOver, winner, gameStarted, timer)
    }

    /** Mounting: the `useState` initial values, then the mount effect that places the first food. */
    constructor (initialFood: Pos)
      requires FreshFoodFree(initialFood)
      ensures Snapshot() == Fresh(initialFood)
      ensures Valid(Snapshot())
    {
      snake1, snake2 := InitialSnake(5), InitialSnake(15);
      dir1, dir2 := Down, Down;
      food := Pos(10, 10);
      score1, score2 := 0, 0;
      gameOver, winner, gameStarted := false, NoWinner, false;
      timer := GAME_DURATION;
      new;
      food := initialFood;
      FreshSetsUp(initialFood);
    }

    method HandleKeyDown(key: string)
      modifies this
      ensures Snapshot() == KeyDown(old(Snapshot()), key)
    {
      if gameOver {
        return;
      }
      if !gameStarted {
        gameStarted := true;
      }
      var k := LowerAscii(key);
      if k == "w" {
        dir1 := TurnTo(dir1, Up);
      } else if k == "s" {
        dir1 := TurnTo(dir1, Down);
      } else if k == "a" {
        dir1 := TurnTo(dir1, Left);
      } else if k == "d" {
        dir1 := TurnTo(dir1, Right);
      } else if k == "arrowup" {
        dir2 := TurnTo(dir2, Up);
      } else if k == "arrowdown" {
        dir2 := TurnTo(dir2, Down);
      } else if k == "arrowleft" {
        dir2 := TurnTo(dir2, Left);
      } else if k == "arrowright" {
        dir2 := TurnTo(dir2, Right);
      }
    }

    method RestartGame(newFood: Pos)
      requires FreshFoodFree(newFood)
      modifies this
      ensures Snapshot() == Fresh(newFood)
      ensures Valid(Snapshot())
    {
      snake1 := InitialSnake(5);
      snake2 := InitialSnake(15);
      dir1, dir2 := Down, Down;
      food := newFood;
      score1, score2 := 0, 0;
      gameOver := false;
      winner := NoWinner;
      gameStarted := false;
      timer := GAME_DURATION;
      assert Snapshot() == Fresh(newFood);
      FreshSetsUp(newFood);
    }

    method TimerTick()
      modifies this
      ensures Snapshot() == TimerStep(old(Snapshot()))
    {
      if !gameStarted || gameOver {
        return;
      }
      if timer <= 1 {
        gameOver := true;
        winner := ByScore(score1, score2);
        timer := 0;
      } else {
        timer := timer - 1;
      }
    }

    method LoopTick(freshFood: Pos)
      requires TickReady(Snapshot(), freshFood)
      modifies this
      ensures Snapshot() == Tick(old(Snapshot()), freshFood)
    {
      if gameOver || !gameStarted {
        return;
      }
      ghost var s := Snapshot();
      var newHead1 := WrapPosition(Pos(snake1[0].x + DX(dir1), snake1[0].y + DY(dir1)));
      var newHead2 := WrapPosition(Pos(snake2[0].x + DX(dir2), snake2[0].y + DY(dir2)));

      var s1Self := CheckCollision(newHead1, snake1);
      var s1HitS2 := CheckCollision(newHead1, snake2);
      var s2Self := CheckCollision(newHead2, snake2);
      var s2HitS1 := CheckCollision(newHead2, snake1);
      var headOn := newHead1 == newHead2;
      assert newHead1 == NewHead(s.board.snake1, s.dir1, GRID_SIZE);
      assert newHead2 == NewHead(s.board.snake2, s.dir2, GRID_SIZE);
      ghost var crash := Crash(s1Self, s1HitS2, s2Self, s2HitS1, headOn);
      assert CrashOf(s.board, s.dir1, s.dir2, GRID_SIZE) == crash;

      if s1Self || s1HitS2 || s2Self || s2HitS1 || headOn {
        gameOver := true;
        if ((s1Self || s1HitS2) && (s2Self || s2HitS1)) || headOn {
          winner := ByScore(score1, score2);
        } else if s1Self || s1HitS2 {
          winner := Player1;
        } else {
          winner := Player2;
        }
        return;
      }

      AdvanceSnakes(newHead1, newHead2, freshFood);
    }

    /** The no-collision part of the loop: put the new heads on, pop the tails of snakes that did not eat, score, and replace eaten food. */
    method AdvanceSnakes(newHead1: Pos, newHead2: Pos, freshFood: Pos)
      requires Movable(Snapshot().board)
      requires newHead1 == NewHead(snake1, dir1, GRID_SIZE) && newHead2 == NewHead(snake2, dir2, GRID_SIZE)
      modifies this
      ensures Snapshot() == old(Snapshot()).(board := Moved(old(Snapshot()).board, dir1, dir2, GRID_SIZE, freshFood))
    {
      var newSnake1 := [newHead1] + snake1;
      var newSnake2 := [newHead2] + snake2;
      if newHead1 == food {
        score1 := score1 + 1;
      } else {
        newSnake1 := newSnake1[..|newSnake1| - 1];
      }
      assert newSnake1 == Advance(old(snake1), newHead1, old(food));
      if newHead2 == food {
        score2 := score2 + 1;
      } else {
        newSnake2 := newSnake2[..|newSnake2| - 1];
      }
      assert newSnake2 == Advance(old(snake2), newHead2, old(food));
      if newHead1 == food || newHead2 == food {
        food := freshFood;
      }
      snake1 := newSnake1;
      snake2 := newSnake2;
    }
  }
}
