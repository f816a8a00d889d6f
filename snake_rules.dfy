/**
 * Rule pieces shared by the two two-snake games, the bot-driven one
 * (Frontend/game.js) and the keyboard one (frontend/component/Snake.jsx).
 * Both files define the same DIRECTIONS table, the same `wrapPosition`
 * (up to the grid size), the same `checkCollision`, the same
 * winner-by-score expression and the same grow-or-move step; they differ in
 * their constants and in the winner rule for a single collision, which the
 * two game modules define separately.
 */
module SnakeRules {

  datatype Pos = Pos(x: int, y: int)

  /** The four entries of the DIRECTIONS table. */
  datatype Direction = Up | Down | Left | Right

  /** The `null | 'Player 1' | 'Player 2' | 'tie'` values of `winner`. */
  datatype Winner = NoWinner | Player1 | Player2 | Tie

  /** Column delta of a direction (`DIRECTIONS[d].x`). */
  function DX(d: Direction): int
  {
    match d
    case Left => -1
    case Right => 1
    case _ => 0
  }

  /** Row delta of a direction (`DIRECTIONS[d].y`); rows grow downwards. */
  function DY(d: Direction): int
  {
    match d
    case Up => -1
    case Down => 1
    case _ => 0
  }

  function Opposite(d: Direction): (r: Direction)
    ensures DX(r) == -DX(d) && DY(r) == -DY(d)
    ensures r != d
  {
    match d
    case Up => Down
    case Down => Up
    case Left => Right
    case Right => Left
  }

  /**
   * One branch of the direction switch in both games: `wanted` is taken
   * unless the current direction has the opposite sign on the same axis
   * (`if (dir.y !== 1) dir = UP`, and so on).
   */
  function TurnTo(current: Direction, wanted: Direction): Direction
  {
    match wanted
    case Up => if DY(current) != 1 then Up else current
    case Down => if DY(current) != -1 then Down else current
    case Left => if DX(current) != 1 then Left else current
    case Right => if DX(current) != -1 then Right else current
  }

  /**
   * A turn is taken exactly when it is not the reverse of the current
   * direction; a refused turn keeps the current direction, so one request
   * never sets the exact reverse of the direction it is compared with.
   */
  lemma TurnToRefusesReversal(current: Direction, wanted: Direction)
    ensures TurnTo(current, wanted) == wanted <==> wanted != Opposite(current)
    ensures wanted == Opposite(current) ==> TurnTo(current, wanted) == current
    ensures TurnTo(current, wanted) != Opposite(current)
  {
  }

  /** A quarter turn clockwise (rows grow downwards): Up, Right, Down, Left. */
  function Clockwise(d: Direction): (r: Direction)
    ensures DX(r) == -DY(d) && DY(r) == DX(d)
  {
    match d
    case Up => Right
    case Right => Down
    case Down => Left
    case Left => Up
  }

  /**
   * The guard compares a request with the last direction set, not with the
   * direction the snake last moved in: two requests between two moves, a
   * quarter turn and then the reverse of the starting direction, are both
   * taken and leave the snake heading back over its own body.
   */
  lemma TwoTurnsReverse(d: Direction)
    ensures TurnTo(d, Clockwise(d)) == Clockwise(d)
    ensures TurnTo(TurnTo(d, Clockwise(d)), Opposite(d)) == Opposite(d)
  {
    TurnToRefusesReversal(d, Clockwise(d));
    TurnToRefusesReversal(Clockwise(d), Opposite(d));
  }

  /** The unwrapped cell one step from `p` in direction `d`. */
  function Step(p: Pos, d: Direction): Pos
  {
    Pos(p.x + DX(d), p.y + DY(d))
  }

  /** The quotient of JavaScript's integer division, truncated toward zero. */
  function JsQuot(a: int, n: int): int
    requires n > 0
  {
    if a >= 0 then a / n else -((-a) / n)
  }

  /**
   * JavaScript's `%` on integers: the quotient is truncated toward zero, so
   * the remainder takes the sign of the dividend (unlike Dafny's `%`).
   */
  function JsRem(a: int, n: int): (r: int)
    requires n > 0
    ensures -n < r < n
    ensures a >= 0 ==> r >= 0
    ensures a <= 0 ==> r <= 0
    ensures a == n * JsQuot(a, n) + r
  {
    if a >= 0 then a % n else -((-a) % n)
  }

  /**
   * The clauses of `JsRem` determine it: any remainder of `a` by `n` that is
   * smaller than `n` in magnitude and has the sign of `a` is `JsRem(a, n)`.
   */
  lemma {:induction false} JsRemUnique(a: int, n: int, q: int, r: int)
    requires n > 0 && a == n * q + r && -n < r < n
    requires a >= 0 ==> r >= 0
    requires a <= 0 ==> r <= 0
    ensures r == JsRem(a, n)
  {
    var q0 := JsQuot(a, n);
    var r0 := JsRem(a, n);
    assert n * (q - q0) == n * q - n * q0;
    assert n * (q - q0) == r0 - r;
    SmallMultiple(n, q - q0);
  }

  /** A multiple of `n` strictly between `-n` and `n` is zero. */
  lemma {:induction false} SmallMultiple(n: int, k: int)
    requires n > 0 && -n < n * k < n
    ensures k == 0
  {
    if k >= 1 {
      assert n * k == n + n * (k - 1);
      if k > 1 { SmallMultiple(n, k - 1); }
    }
  }

  predicate InGrid(p: Pos, size: int)
  {
    0 <= p.x < size && 0 <= p.y < size
  }

  predicate AllInGrid(snake: seq<Pos>, size: int)
  {
    forall i :: 0 <= i < |snake| ==> InGrid(snake[i], size)
  }

  /** `wrapPosition` for a square grid of side `size`. */
  function Wrap(p: Pos, size: int): Pos
    requires size > 0
  {
    Pos(JsRem(p.x + size, size), JsRem(p.y + size, size))
  }

  /**
   * A unit step from a cell of the grid, wrapped, is again a cell of the
   * grid; leaving on one side re-enters on the opposite side, and each
   * coordinate that stays inside is not changed by the wrap.
   */
  lemma WrapStep(p: Pos, d: Direction, size: int)
    requires size > 0 && InGrid(p, size)
    ensures InGrid(Wrap(Step(p, d), size), size)
    ensures 0 <= Step(p, d).x < size ==> Wrap(Step(p, d), size).x == Step(p, d).x
    ensures 0 <= Step(p, d).y < size ==> Wrap(Step(p, d), size).y == Step(p, d).y
    ensures Step(p, d).x == -1 ==> Wrap(Step(p, d), size).x == size - 1
    ensures Step(p, d).x == size ==> Wrap(Step(p, d), size).x == 0
    ensures Step(p, d).y == -1 ==> Wrap(Step(p, d), size).y == size - 1
    ensures Step(p, d).y == size ==> Wrap(Step(p, d), size).y == 0
  {
    var q := Step(p, d);
    WrapCoord(q.x, size);
    WrapCoord(q.y, size);
  }

  lemma WrapCoord(c: int, size: int)
    requires size > 0 && -1 <= c <= size
    ensures 0 <= JsRem(c + size, size) < size
    ensures 0 <= c < size ==> JsRem(c + size, size) == c
    ensures c == -1 ==> JsRem(c + size, size) == size - 1
    ensures c == size ==> JsRem(c + size, size) == 0
  {
    ModOfSmall(c + size, size);
  }

  /** Dafny's `%` on a dividend in `[0, 2n]`. */
  lemma ModOfSmall(a: int, n: int)
    requires n > 0 && 0 <= a <= 2 * n
    ensures a < n ==> a % n == a
    ensures n <= a < 2 * n ==> a % n == a - n
    ensures a == 2 * n ==> a % n == 0
  {
  }

  /**
   * `checkCollision(head, snake)`: the head meets a segment of the snake
   * other than the segment at index 0.
   */
  function CheckCollision(head: Pos, snake: seq<Pos>): bool
  {
    |snake| > 1 && head in snake[1..]
  }

  /** A collision is a match with some segment at index 1 or later; the segment at index 0 never counts. */
  lemma CheckCollisionMeans(head: Pos, snake: seq<Pos>)
    ensures CheckCollision(head, snake) <==> exists i :: 1 <= i < |snake| && snake[i] == head
    ensures |snake| >= 1 && head == snake[0] && head !in snake[1..] ==> !CheckCollision(head, snake)
  {
  }

  /** `score1 > score2 ? 'Player 1' : score2 > score1 ? 'Player 2' : 'tie'` */
  function ByScore(score1: int, score2: int): (r: Winner)
    ensures r == Player1 <==> score1 > score2
    ensures r == Player2 <==> score2 > score1
    ensures r == Tie <==> score1 == score2
  {
    if score1 > score2 then Player1 else if score2 > score1 then Player2 else Tie
  }

  /** The part of the game state that a tick moves: snakes, food and scores. */
  datatype Board = Board(snake1: seq<Pos>, snake2: seq<Pos>, food: Pos, score1: int, score2: int)

  /** The five collision tests of a tick. */
  datatype Crash = Crash(s1Self: bool, s1HitS2: bool, s2Self: bool, s2HitS1: bool, headOn: bool)
  {
    predicate Snake1() { s1Self || s1HitS2 }
    predicate Snake2() { s2Self || s2HitS1 }
    predicate Any() { s1Self || s1HitS2 || s2Self || s2HitS1 || headOn }
    /** Both snakes crash or the heads meet: the case decided by score. */
    predicate Mutual() { ((s1Self || s1HitS2) && (s2Self || s2HitS1)) || headOn }
  }

  predicate Movable(b: Board)
  {
    |b.snake1| >= 1 && |b.snake2| >= 1
  }

  /** `wrapPosition({x: snake[0].x + dir.x, y: snake[0].y + dir.y})` */
  function NewHead(snake: seq<Pos>, d: Direction, size: int): Pos
    requires |snake| >= 1 && size > 0
  {
    Wrap(Step(snake[0], d), size)
  }

  function CrashOf(b: Board, dir1: Direction, dir2: Direction, size: int): (c: Crash)
    requires Movable(b) && size > 0
  {
    var h1 := NewHead(b.snake1, dir1, size);
    var h2 := NewHead(b.snake2, dir2, size);
    Crash(CheckCollision(h1, b.snake1), CheckCollision(h1, b.snake2),
          CheckCollision(h2, b.snake2), CheckCollision(h2, b.snake1), h1 == h2)
  }

  /** `[newHead, ...snake]`, with the last segment popped unless the head is on the food. */
  function Advance(snake: seq<Pos>, head: Pos, food: Pos): seq<Pos>
    requires |snake| >= 1
  {
    if head == food then [head] + snake else [head] + snake[..|snake| - 1]
  }

  function NewSnake1(b: Board, dir1: Direction, size: int): seq<Pos>
    requires Movable(b) && size > 0
  {
    Advance(b.snake1, NewHead(b.snake1, dir1, size), b.food)
  }

  function NewSnake2(b: Board, dir2: Direction, size: int): seq<Pos>
    requires Movable(b) && size > 0
  {
    Advance(b.snake2, NewHead(b.snake2, dir2, size), b.food)
  }

  predicate Eaten(b: Board, dir1: Direction, dir2: Direction, size: int)
    requires Movable(b) && size > 0
  {
    NewHead(b.snake1, dir1, size) == b.food || NewHead(b.snake2, dir2, size) == b.food
  }

  /**
   * What `createFood([newSnake1, newSnake2])` can return: a cell of the grid
   * on neither new snake. Only asked for when the food is eaten.
   */
  predicate FreshFoodOk(b: Board, dir1: Direction, dir2: Direction, size: int, freshFood: Pos)
    requires Movable(b) && size > 0
  {
    Eaten(b, dir1, dir2, size) ==>
      InGrid(freshFood, size)
      && freshFood !in NewSnake1(b, dir1, size)
      && freshFood !in NewSnake2(b, dir2, size)
  }

  /** The board after a tick without collision. */
  function Moved(b: Board, dir1: Direction, dir2: Direction, size: int, freshFood: Pos): Board
    requires Movable(b) && size > 0
  {
    var h1 := NewHead(b.snake1, dir1, size);
    var h2 := NewHead(b.snake2, dir2, size);
    Board(NewSnake1(b, dir1, size), NewSnake2(b, dir2, size),
          if Eaten(b, dir1, dir2, size) then freshFood else b.food,
          if h1 == b.food then b.score1 + 1 else b.score1,
          if h2 == b.food then b.score2 + 1 else b.score2)
  }

  /**
   * The grow-or-move rule for one snake: the new snake starts with the new
   * head and continues with the old body; on the food it keeps every old
   * segment (one longer, one point more), otherwise it drops the old last
   * segment (same length, same score).
   */
  lemma MovedSnake1(b: Board, dir1: Direction, dir2: Direction, size: int, freshFood: Pos)
    requires Movable(b) && size > 0
    ensures var r := Moved(b, dir1, dir2, size, freshFood);
      var h := NewHead(b.snake1, dir1, size);
      && r.snake1[0] == h
      && (forall i :: 1 <= i < |r.snake1| ==> r.snake1[i] == b.snake1[i - 1])
      && (h == b.food ==> |r.snake1| == |b.snake1| + 1 && r.score1 == b.score1 + 1)
      && (h != b.food ==> |r.snake1| == |b.snake1| && r.score1 == b.score1)
  {
  }

  lemma MovedSnake2(b: Board, dir1: Direction, dir2: Direction, size: int, freshFood: Pos)
    requires Movable(b) && size > 0
    ensures var r := Moved(b, dir1, dir2, size, freshFood);
      var h := NewHead(b.snake2, dir2, size);
      && r.snake2[0] == h
      && (forall i :: 1 <= i < |r.snake2| ==> r.snake2[i] == b.snake2[i - 1])
      && (h == b.food ==> |r.snake2| == |b.snake2| + 1 && r.score2 == b.score2 + 1)
      && (h != b.food ==> |r.snake2| == |b.snake2| && r.score2 == b.score2)
  {
  }

  /**
   * The food moves only when a snake eats it, and then to a cell on neither
   * new snake; food that is not eaten stays where it was.
   */
  lemma MovedFood(b: Board, dir1: Direction, dir2: Direction, size: int, freshFood: Pos)
    requires Movable(b) && size > 0 && FreshFoodOk(b, dir1, dir2, size, freshFood)
    ensures var r := Moved(b, dir1, dir2, size, freshFood);
      && (r.food != b.food ==> Eaten(b, dir1, dir2, size))
      && (Eaten(b, dir1, dir2, size) ==> r.food !in r.snake1 && r.food !in r.snake2)
  {
  }

  /**
   * The board invariant kept by every tick: each snake is `initialLength`
   * segments plus one per point scored, every segment and the food are on
   * the grid, and the food lies on neither snake.
   */
  predicate BoardOk(b: Board, size: int, initialLength: int)
  {
    && initialLength >= 1
    && b.score1 >= 0 && b.score2 >= 0
    && |b.snake1| == initialLength + b.score1
    && |b.snake2| == initialLength + b.score2
    && AllInGrid(b.snake1, size) && AllInGrid(b.snake2, size)
    && InGrid(b.food, size)
    && b.food !in b.snake1 && b.food !in b.snake2
  }

  lemma AdvanceInGrid(snake: seq<Pos>, head: Pos, food: Pos, size: int)
    requires |snake| >= 1 && AllInGrid(snake, size) && InGrid(head, size)
    ensures AllInGrid(Advance(snake, head, food), size)
  {
    var r := Advance(snake, head, food);
    forall i | 0 <= i < |r|
      ensures InGrid(r[i], size)
    {
      if i > 0 {
        assert r[i] == snake[i - 1];
      }
    }
  }

  /** A cell that is on neither the old snake nor the new head is not on the new snake. */
  lemma AdvanceAvoids(snake: seq<Pos>, head: Pos, food: Pos, p: Pos)
    requires |snake| >= 1 && p !in snake && p != head
    ensures p !in Advance(snake, head, food)
  {
  }

  /** Every tick without collision keeps the board invariant. */
  lemma MovedKeepsBoardOk(b: Board, dir1: Direction, dir2: Direction, size: int, initialLength: int, freshFood: Pos)
    requires size > 0 && BoardOk(b, size, initialLength)
    requires FreshFoodOk(b, dir1, dir2, size, freshFood)
    ensures BoardOk(Moved(b, dir1, dir2, size, freshFood), size, initialLength)
  {
    var h1 := NewHead(b.snake1, dir1, size);
    var h2 := NewHead(b.snake2, dir2, size);
    WrapStep(b.snake1[0], dir1, size);
    WrapStep(b.snake2[0], dir2, size);
    AdvanceInGrid(b.snake1, h1, b.food, size);
    AdvanceInGrid(b.snake2, h2, b.food, size);
    if !Eaten(b, dir1, dir2, size) {
      AdvanceAvoids(b.snake1, h1, b.food, b.food);
      AdvanceAvoids(b.snake2, h2, b.food, b.food);
    }
  }
}
