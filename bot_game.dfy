/**
 * The bot-driven two-snake game of Frontend/game.js. The page keeps the game
 * in closure variables (`snake1`, `snake2`, `dir1`, `dir2`, `food`,
 * `score1`, `score2`, `gameOver`, `winner`, `gameStarted`, `timer`,
 * `player1Id`, `player2Id`) that its handlers reassign; here they are the
 * fields of class `Game`. Each handler is a method whose postcondition ties
 * the new state to a pure function of the old one (`Tick`, `BotMove`,
 * `Init`, `Start`, `TimerStep`, `Ended`), and the lemmas state the rules
 * of the game about those functions.
 */
module BotGame {
  import opened Wrappers
  import opened SnakeRules

  const GRID_SIZE := 30
  const INITIAL_LENGTH := 4
  const GAME_DURATION := 60

  datatype State = State(
    board: Board,
    dir1: Direction, dir2: Direction,
    gameOver: bool, winner: Winner, gameStarted: bool, timer: int,
    player1Id: Option<string>, player2Id: Option<string>)

  /** `wrapPosition` on the 30 x 30 torus. */
  function WrapPosition(p: Pos): (r: Pos)
    ensures -GRID_SIZE <= p.x ==> 0 <= r.x < GRID_SIZE
    ensures -GRID_SIZE <= p.y ==> 0 <= r.y < GRID_SIZE
    ensures 0 <= p.x < GRID_SIZE ==> r.x == p.x
    ensures 0 <= p.y < GRID_SIZE ==> r.y == p.y
    ensures p.x == -1 ==> r.x == GRID_SIZE - 1
    ensures p.x == GRID_SIZE ==> r.x == 0
    ensures p.y == -1 ==> r.y == GRID_SIZE - 1
    ensures p.y == GRID_SIZE ==> r.y == 0
  {
    Wrap(p, GRID_SIZE)
  }

  /** A unit step from a cell of the grid stays in the grid once wrapped. */
  lemma WrapPositionKeepsInGrid(head: Pos, d: Direction)
    requires InGrid(head, GRID_SIZE)
    ensures InGrid(WrapPosition(Step(head, d)), GRID_SIZE)
  {
    WrapStep(head, d, GRID_SIZE);
  }

  /** `Array(INITIAL_LENGTH).fill().map((_, i) => ({ x: col, y: 15 - i }))`: head at row 15, body upwards. */
  function InitialSnake(col: int): seq<Pos>
  {
    seq(INITIAL_LENGTH, i => Pos(col, 15 - i))
  }

  /** What `createFood([snake1, snake2])` can return in `initGame`. */
  predicate InitFoodOk(food: Pos)
  {
    InGrid(food, GRID_SIZE) && food !in InitialSnake(8) && food !in InitialSnake(22)
  }

  /** The state reached by `initGame`; `gameStarted` and the player ids are not touched. */
  function Init(s: State, food: Pos): State
  {
    s.(board := Board(InitialSnake(8), InitialSnake(22), food, 0, 0),
       dir1 := Down, dir2 := Down, gameOver := false, winner := NoWinner, timer := GAME_DURATION)
  }

  /** The closure variables as the page script declares them, before `initGame` runs. */
  function Declared(): State
  {
    State(Board([], [], Pos(15, 15), 0, 0), Down, Down, false, NoWinner, false, GAME_DURATION, None, None)
  }

  /** `initGame` places two snakes of length 4 at columns 8 and 22, heads on row 15, both heading down, scores 0, a full timer and no winner. */
  lemma InitSetsUp(s: State, food: Pos)
    requires InitFoodOk(food)
    ensures var r := Init(s, food);
      && |r.board.snake1| == INITIAL_LENGTH && |r.board.snake2| == INITIAL_LENGTH
      && r.board.snake1[0] == Pos(8, 15) && r.board.snake2[0] == Pos(22, 15)
      && (forall i :: 0 <= i < INITIAL_LENGTH ==> r.board.snake1[i].x == 8 && r.board.snake2[i].x == 22)
      && r.dir1 == Down && r.dir2 == Down
      && r.board.score1 == 0 && r.board.score2 == 0
      && r.timer == 60 && !r.gameOver && r.winner == NoWinner
      && r.board.food == food
      && r.gameStarted == s.gameStarted
      && Valid(r)
  {
    assert InitialSnake(8)[0] == Pos(8, 15);
  }

  lemma InitIsValid(s: State, food: Pos)
    requires InitFoodOk(food)
    ensures Valid(Init(s, food))
  {
    InitSetsUp(s, food);
  }

  /** `startGame`: does nothing once started; otherwise marks the game started and runs `initGame`. */
  function Start(s: State, food: Pos): State
  {
    if s.gameStarted then s else Init(s.(gameStarted := true), food)
  }

  /** The effect of `endGame` (with `showGameOver`) on the state: over, and decided by score if no winner was set. */
  function Ended(s: State): State
  {
    s.(gameOver := true, winner := if s.winner == NoWinner then ByScore(s.board.score1, s.board.score2) else s.winner)
  }

  lemma EndedDecides(s: State)
    ensures Ended(s).gameOver && Ended(s).winner != NoWinner
    ensures s.winner != NoWinner ==> Ended(s).winner == s.winner
    ensures Ended(s).board == s.board && Ended(s).timer == s.timer
    ensures Ended(Ended(s)) == Ended(s)
  {
  }

  /** The direction names `handleBotMove` knows; any other string is ignored. */
  function ParseDirection(direction: string): Option<Direction>
  {
    if direction == "UP" then Some(Up)
    else if direction == "DOWN" then Some(Down)
    else if direction == "LEFT" then Some(Left)
    else if direction == "RIGHT" then Some(Right)
    else None
  }

  /** The name a bot sends for direction `d`. */
  function DirectionName(d: Direction): (r: string)
    ensures ParseDirection(r) == Some(d)
  {
    match d
    case Up => "UP"
    case Down => "DOWN"
    case Left => "LEFT"
    case Right => "RIGHT"
  }

  /** The direction switch of `handleBotMove` for one snake. */
  function Turn(current: Direction, direction: string): Direction
  {
    match ParseDirection(direction)
    case Some(wanted) => TurnTo(current, wanted)
    case None => current
  }

  /** `handleBotMove(botId, direction)`. */
  function BotMove(s: State, botId: string, direction: string): State
  {
    if !s.gameStarted || s.gameOver then s
    else if s.player1Id == Some(botId) then s.(dir1 := Turn(s.dir1, direction))
    else if s.player2Id == Some(botId) then s.(dir2 := Turn(s.dir2, direction))
    else s
  }

  /**
   * A bot move does nothing unless the game is running; a move of player 1
   * changes only `dir1`, one of player 2 only `dir2`, and any other bot
   * changes nothing. No move sets a direction to the exact reverse of the
   * one it replaces.
   */
  lemma BotMoveRule(s: State, botId: string, direction: string)
    ensures var r := BotMove(s, botId, direction);
      && (!s.gameStarted || s.gameOver ==> r == s)
      && r.dir1 != Opposite(s.dir1) && r.dir2 != Opposite(s.dir2)
      && (s.gameStarted && !s.gameOver && s.player1Id == Some(botId) ==>
            r == s.(dir1 := Turn(s.dir1, direction)))
      && (s.gameStarted && !s.gameOver && s.player1Id != Some(botId) && s.player2Id == Some(botId) ==>
            r == s.(dir2 := Turn(s.dir2, direction)))
      && (s.player1Id != Some(botId) && s.player2Id != Some(botId) ==> r == s)
  {
    TurnRefusesReversal(s.dir1, direction);
    TurnRefusesReversal(s.dir2, direction);
  }

  /**
   * A known name turns the snake unless it asks for the reverse of the
   * current direction; an unknown string changes nothing; no name sets the
   * exact reverse of the current direction.
   */
  lemma TurnRefusesReversal(current: Direction, direction: string)
    ensures ParseDirection(direction) == None ==> Turn(current, direction) == current
    ensures ParseDirection(direction).Some? ==>
      (Turn(current, direction) == ParseDirection(direction).value <==> ParseDirection(direction).value != Opposite(current))
    ensures Turn(current, direction) != Opposite(current)
  {
    if ParseDirection(direction).Some? {
      TurnToRefusesReversal(current, ParseDirection(direction).value);
    }
  }

  /**
   * Two moves of player 1 between two ticks reverse snake 1: a quarter turn,
   * then the reverse of the starting direction. Each move is checked against
   * `dir1` as the previous move left it, not against the direction the snake
   * last moved in.
   */
  lemma TwoMovesReverse(s: State, botId: string)
    requires s.gameStarted && !s.gameOver && s.player1Id == Some(botId)
    ensures BotMove(BotMove(s, botId, DirectionName(Clockwise(s.dir1))), botId, DirectionName(Opposite(s.dir1))).dir1
      == Opposite(s.dir1)
  {
    TwoTurnsReverse(s.dir1);
  }

  /** The winner `gameLoop` names when a collision ends the game. */
  function CollisionWinner(c: Crash, score1: int, score2: int): Winner
  {
    if c.Mutual() then ByScore(score1, score2)
    else if c.Snake1() then Player2
    else Player1
  }

  predicate TickReady(s: State, freshFood: Pos)
  {
    Movable(s.board) && FreshFoodOk(s.board, s.dir1, s.dir2, GRID_SIZE, freshFood)
  }

  /** One call of `gameLoop`; `freshFood` stands for what `createFood` returns when the food is eaten. */
  function Tick(s: State, freshFood: Pos): State
    requires TickReady(s, freshFood)
  {
    var c := CrashOf(s.board, s.dir1, s.dir2, GRID_SIZE);
    if c.Any() then Ended(s.(winner := CollisionWinner(c, s.board.score1, s.board.score2)))
    else s.(board := Moved(s.board, s.dir1, s.dir2, GRID_SIZE, freshFood))
  }

  /**
   * A collision ends the game and changes nothing but `gameOver` and
   * `winner`, so the snakes stay put: a double crash or a head-on meeting
   * is decided by score, a crash of snake 1 alone is won by player 2, a
   * crash of snake 2 alone by player 1.
   */
  lemma TickCollision(s: State, freshFood: Pos)
    requires TickReady(s, freshFood)
    requires CrashOf(s.board, s.dir1, s.dir2, GRID_SIZE).Any()
    ensures var c := CrashOf(s.board, s.dir1, s.dir2, GRID_SIZE);
      var r := Tick(s, freshFood);
      && r.gameOver && r.board == s.board && r.dir1 == s.dir1 && r.dir2 == s.dir2
      && r == s.(gameOver := true, winner := r.winner)
      && (c.Mutual() ==> r.winner == ByScore(s.board.score1, s.board.score2))
      && (c.Snake1() && !c.Snake2() && !c.headOn ==> r.winner == Player2)
      && (c.Snake2() && !c.Snake1() && !c.headOn ==> r.winner == Player1)
  {
  }

  /** Without a collision a tick changes only the board, by the grow-or-move rule, and the game goes on. */
  lemma TickMove(s: State, freshFood: Pos)
    requires TickReady(s, freshFood)
    requires !CrashOf(s.board, s.dir1, s.dir2, GRID_SIZE).Any()
    ensures var r := Tick(s, freshFood);
      && r == s.(board := r.board)
      && r.board == Moved(s.board, s.dir1, s.dir2, GRID_SIZE, freshFood)
      && r.board.snake1[0] == WrapPosition(Step(s.board.snake1[0], s.dir1))
      && r.board.snake2[0] == WrapPosition(Step(s.board.snake2[0], s.dir2))
  {
  }

  /** The timer callback of `startGame`: one second off, and at zero the game ends decided by score. */
  function TimerStep(s: State): State
  {
    var t := s.timer - 1;
    if t <= 0 then Ended(s.(timer := t, winner := ByScore(s.board.score1, s.board.score2)))
    else s.(timer := t)
  }

  /** `k` timer callbacks in a row. */
  function TimerRun(s: State, k: nat): State
    decreases k
  {
    if k == 0 then s else TimerRun(TimerStep(s), k - 1)
  }

  /**
   * A running game with `t` seconds left is still running after fewer than
   * `t` timer callbacks, and after exactly `t` it is over at timer 0 with
   * the winner decided by score.
   */
  lemma {:induction false} CountdownEndsGame(s: State, k: nat)
    requires !s.gameOver && 0 < k <= s.timer
    decreases k
    ensures var r := TimerRun(s, k);
      && r.timer == s.timer - k && r.board == s.board
      && (k < s.timer ==> !r.gameOver && r.winner == s.winner)
      && (k == s.timer ==> r.gameOver && r.winner == ByScore(s.board.score1, s.board.score2))
  {
    var n := TimerStep(s);
    if k > 1 {
      assert !n.gameOver && n.timer == s.timer - 1;
      CountdownEndsGame(n, k - 1);
    }
  }

  /** The board invariant of the 30 x 30 game with snakes of initial length 4. */
  predicate Valid(s: State)
  {
    BoardOk(s.board, GRID_SIZE, INITIAL_LENGTH)
  }

  /** Every operation keeps the board invariant. */
  lemma OperationsKeepValid(s: State, botId: string, direction: string, food: Pos, freshFood: Pos)
    requires Valid(s) && InitFoodOk(food)
    ensures TickReady(s, freshFood) ==> Valid(Tick(s, freshFood))
    ensures Valid(BotMove(s, botId, direction))
    ensures Valid(TimerStep(s)) && Valid(Ended(s))
    ensures Valid(Init(s, food)) && Valid(Start(s, food))
  {
    if TickReady(s, freshFood) && !CrashOf(s.board, s.dir1, s.dir2, GRID_SIZE).Any() {
      MovedKeepsBoardOk(s.board, s.dir1, s.dir2, GRID_SIZE, INITIAL_LENGTH, freshFood);
    }
    InitSetsUp(s, food);
    InitSetsUp(s.(gameStarted := true), food);
  }

  class Game {
    var snake1: seq<Pos>
    var snake2: seq<Pos>
    var dir1: Direction
    var dir2: Direction
    var food: Pos
    var score1: int
    var score2: int
    var gameOver: bool
    var winner: Winner
    var gameStarted: bool
    var timer: int
    var player1Id: Option<string>
    var player2Id: Option<string>

    ghost function Snapshot(): State
      reads this
    {
      State(Board(snake1, snake2, food, score1, score2), dir1, dir2,
            gameOver, winner, gameStarted, timer, player1Id, player2Id)
    }

    /** The page load: the declarations, then the first `initGame`. */
    constructor (initialFood: Pos)
      requires InitFoodOk(initialFood)
      ensures Snapshot() == Init(Declared(), initialFood)
      ensures Valid(Snapshot())
    {
      snake1, snake2 := [], [];
      dir1, dir2 := Down, Down;
      food := Pos(15, 15);
      score1, score2 := 0, 0;
      gameOver, winner, gameStarted := false, NoWinner, false;
      timer := GAME_DURATION;
      player1Id, player2Id := None, None;
      new;
      InitGame(initialFood);
    }

    method InitGame(newFood: Pos)
      requires InitFoodOk(newFood)
      modifies this
      ensures Snapshot() == Init(old(Snapshot()), newFood)
      ensures Valid(Snapshot())
    {
      snake1, snake2 := InitialSnake(8), InitialSnake(22);
      dir1, dir2 := Down, Down;
      score1, score2 := 0, 0;
      gameOver, winner := false, NoWinner;
      timer := GAME_DURATION;
      food := newFood;
      InitIsValid(old(Snapshot()), newFood);
    }

    method HandleBotMove(botId: string, direction: string)
      modifies this
      ensures Snapshot() == BotMove(old(Snapshot()), botId, direction)
    {
      if !gameStarted || gameOver {
        return;
      }
      if player1Id == Some(botId) {
        dir1 := Turn(dir1, direction);
      } else if player2Id == Some(botId) {
        dir2 := Turn(dir2, direction);
      }
    }

    method EndGame()
      modifies this
      ensures Snapshot() == Ended(old(Snapshot()))
    {
      gameOver := true;
      if winner == NoWinner {
        winner := ByScore(score1, score2);
      }
    }

    method GameLoop(freshFood: Pos)
      requires TickReady(Snapshot(), freshFood)
      modifies this
      ensures Snapshot() == Tick(old(Snapshot()), freshFood)
    {
      ghost var s := Snapshot();
      var newHead1 := WrapPosition(Pos(snake1[0].x + DX(dir1), snake1[0].y + DY(dir1)));
      var newHead2 := WrapPosition(Pos(snake2[0].x + DX(dir2), snake2[0].y + DY(dir2)));

      var s1Self := CheckCollision(newHead1, snake1);
      var s1HitS2 := CheckCollision(newHead1, snake2);
      var s2Self := CheckCollision(newHead2, snake2);
      var s2HitS1 := CheckCollision(newHead2, snake1);
      var headOn := newHead1 == newHead2;
      assert newHead1 == NewHead(s.board.snake1, s.dir1, GRID_SIZE);
      assert newHead2 == NewHead(s.board.snake2, s.dir2, GRID_SIZE);
      ghost var crash := Crash(s1Self, s1HitS2, s2Self, s2HitS1, headOn);
      assert CrashOf(s.board, s.dir1, s.dir2, GRID_SIZE) == crash;

      if s1Self || s1HitS2 || s2Self || s2HitS1 || headOn {
        if ((s1Self || s1HitS2) && (s2Self || s2HitS1)) || headOn {
          winner := ByScore(score1, score2);
        } else if s1Self || s1HitS2 {
          winner := Player2;
        } else {
          winner := Player1;
        }
        EndGame();
        return;
      }

      AdvanceSnakes(newHead1, newHead2, freshFood);
    }

    method StartGame(newFood: Pos)
      requires InitFoodOk(newFood)
      modifies this
      ensures Snapshot() == Start(old(Snapshot()), newFood)
    {
      if gameStarted {
        return;
      }
      gameStarted := true;
      InitGame(newFood);
    }

    /** The `GAME_STARTED` message: record both bot ids, then `startGame`. */
    method OnGameStarted(id1: string, id2: string, newFood: Pos)
      requires InitFoodOk(newFood)
      modifies this
      ensures Snapshot() == Start(old(Snapshot()).(player1Id := Some(id1), player2Id := Some(id2)), newFood)
    {
      player1Id := Some(id1);
      player2Id := Some(id2);
      StartGame(newFood);
    }

    method TimerTick()
      modifies this
      ensures Snapshot() == TimerStep(old(Snapshot()))
    {
      timer := timer - 1;
      if timer <= 0 {
        winner := ByScore(score1, score2);
        EndGame();
      }
    }

    /** The no-collision part of the loop: put the new heads on, pop the tails of snakes that did not eat, score, and replace eaten food. */
    method AdvanceSnakes(newHead1: Pos, newHead2: Pos, freshFood: Pos)
      requires Movable(Snapshot().board)
      requires newHead1 == NewHead(snake1, dir1, GRID_SIZE) && newHead2 == NewHead(snake2, dir2, GRID_SIZE)
      modifies this
      ensures Snapshot() == old(Snapshot()).(board := Moved(old(Snapshot()).board, dir1, dir2, GRID_SIZE, freshFood))
    {
      var newSnake1 := [newHead1] + snake1;
      var newSnake2 := [newHead2] + snake2;
      if newHead1 == food {
        score1 := score1 + 1;
      } else {
        newSnake1 := newSnake1[..|newSnake1| - 1];
      }
      assert newSnake1 == Advance(old(snake1), newHead1, old(food));
      if newHead2 == food {
        score2 := score2 + 1;
      } else {
        newSnake2 := newSnake2[..|newSnake2| - 1];
      }
      assert newSnake2 == Advance(old(snake2), newHead2, old(food));
      if newHead1 == food || newHead2 == food {
        food := freshFood;
      }
      snake1 := newSnake1;
      snake2 := newSnake2;
    }
  }
}
