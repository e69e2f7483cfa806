/** The integer bookkeeping of one frame of the game: the player's paddle
    step, the AI paddle step, the score change on a back-wall exit, and the
    vertical hit bands of the two paddles. Positions are the top edge of a
    paddle in screen pixels, y growing towards the bottom of the screen. */
module PongRules {
  import opened MachineInts

  const PADDLE_WIDTH: int := 4
  const PADDLE_HEIGHT: int := 48

  /** Screen height of the TI-84 Plus CE, the platform's `LCD_HEIGHT`. */
  const CE_LCD_HEIGHT: int := 240

  /** What the `!=` edge tests need of the lowest paddle position
      `LCD_HEIGHT - PADDLE_HEIGHT`: it is reachable from 0 in steps of 2
      and fits an `int16_t`. */
  predicate ValidLimit(limit: int)
  {
    0 <= limit <= 0x7FFF && limit % 2 == 0
  }

  /** On the TI-84 Plus CE the lowest paddle position is 240 - 48 = 192. */
  lemma CeLimitIsValid()
    ensures CE_LCD_HEIGHT - PADDLE_HEIGHT == 192 && ValidLimit(CE_LCD_HEIGHT - PADDLE_HEIGHT)
  {
  }

  /** A paddle position that is on screen and reachable in steps of 2. */
  predicate OnScreen(pos: int, limit: int)
  {
    0 <= pos <= limit && pos % 2 == 0
  }

  /** The values the model tracks: the two `int16_t` paddle positions and
      the two `uint8_t` scores. */
  datatype GameState = GameState(playerPos: Int16, aiPos: Int16, playerScore: Uint8, aiScore: Uint8)

  /** Program start: both paddles at the top, both scores zero. */
  const Initial: GameState := GameState(0, 0, 0, 0)

  // ---------------------------------------------------------------------
  // Player paddle

  /** The player's paddle after one frame: first the down key moves it 2
      lower unless it sits at `limit`, then the up key moves it 2 higher
      unless it (now) sits at 0. */
  function PlayerStep(pos: Int16, limit: int, down: bool, up: bool): (r: Int16)
    ensures r == pos || r == Wrap16(pos + 2) || r == Wrap16(pos - 2)
    ensures !down && !up ==> r == pos
  {
    var afterDown := if down && pos != limit then Wrap16(pos + 2) else pos;
    if up && afterDown != 0 then Wrap16(afterDown - 2) else afterDown
  }

  /** On screen the `!=` edge stops are enough: the paddle never steps past
      either edge, and no `int16_t` wrap-around happens. */
  lemma PlayerStepKeepsOnScreen(pos: Int16, limit: int, down: bool, up: bool)
    requires ValidLimit(limit) && OnScreen(pos, limit)
    ensures var r := PlayerStep(pos, limit, down, up);
      OnScreen(r, limit) && (r == pos - 2 || r == pos || r == pos + 2)
  {
  }

  /** What each key combination does to an on-screen paddle. With both keys
      held the paddle stays put, except at the bottom where the down move is
      blocked and the up move is not. */
  lemma PlayerStepKeys(pos: Int16, limit: int, down: bool, up: bool)
    requires ValidLimit(limit) && OnScreen(pos, limit)
    ensures var r := PlayerStep(pos, limit, down, up);
      && (!down && !up ==> r == pos)
      && (down && !up ==> r == if pos != limit then pos + 2 else pos)
      && (!down && up ==> r == if pos != 0 then pos - 2 else pos)
      && (down && up ==> r == if pos == limit && limit != 0 then pos - 2 else pos)
  {
  }

  /** A step by 2 that is clamped to `[0, limit]`, moving by the net key
      direction: the rule a reader of "clamped paddle movement" expects. */
  function ClampedPlayerStep(pos: int, limit: int, down: bool, up: bool): (r: int)
    requires 0 <= pos <= limit
    ensures 0 <= r <= limit
  {
    var dir := (if down then 1 else 0) - (if up then 1 else 0);
    var target := pos + 2 * dir;
    if target < 0 then 0 else if target > limit then limit else target
  }

  /** The paddle step agrees with the clamped reference on every on-screen
      position and key combination but one: both keys held at the bottom
      edge, where the paddle moves up. */
  lemma PlayerStepVersusClamped(pos: Int16, limit: int, down: bool, up: bool)
    requires ValidLimit(limit) && OnScreen(pos, limit)
    ensures PlayerStep(pos, limit, down, up) == ClampedPlayerStep(pos, limit, down, up)
            <==> !(down && up && pos == limit && limit != 0)
  {
    PlayerStepKeys(pos, limit, down, up);
  }

  /** Why the limit has to be even: with an odd limit, the down key takes the
      even position just before the limit past it, and from any even position
      past the limit the `!=` test never stops the paddle again (until the
      `int16_t` range runs out). */
  lemma OddLimitOvershoots(limit: int, p: int)
    requires 0 < limit && limit + 1 <= 0x7FFF && limit % 2 == 1
    requires p % 2 == 0 && limit < p && p + 2 <= 0x7FFF
    ensures PlayerStep(limit - 1, limit, true, false) == limit + 1
    ensures PlayerStep(p, limit, true, false) == p + 2
  {
  }

  // ---------------------------------------------------------------------
  // AI paddle

  /** The AI paddle after one frame: it moves 2 towards the ball's y, judged
      against its centre `pos + PADDLE_HEIGHT / 2`, unless it sits at the
      edge it would move across. */
  function AiStep(pos: Int16, limit: int, ballY: real): (r: Int16)
    ensures r == pos || r == Wrap16(pos - 2) || r == Wrap16(pos + 2)
    ensures ballY == (pos + PADDLE_HEIGHT / 2) as real ==> r == pos
    ensures r != pos ==> (r == Wrap16(pos - 2) <==> ballY < (pos + PADDLE_HEIGHT / 2) as real)
  {
    var centre := (pos + PADDLE_HEIGHT / 2) as real;
    if ballY < centre && pos != 0 then Wrap16(pos - 2)
    else if ballY > centre && pos != limit then Wrap16(pos + 2)
    else pos
  }

  /** When, on screen, the AI paddle moves up, moves down or stays. */
  lemma AiStepDirection(pos: Int16, limit: int, ballY: real)
    requires ValidLimit(limit) && OnScreen(pos, limit)
    ensures var r := AiStep(pos, limit, ballY);
      var centre := (pos + PADDLE_HEIGHT / 2) as real;
      && OnScreen(r, limit)
      && (r == pos - 2 <==> ballY < centre && pos != 0)
      && (r == pos + 2 <==> ballY > centre && pos != limit)
      && (r == pos <==> !(ballY < centre && pos != 0) && !(ballY > centre && pos != limit))
  {
  }

  // ---------------------------------------------------------------------
  // Scoring

  /** The score change when the ball reaches a back wall: a left exit gives
      the AI a point, otherwise a right exit gives the player one. */
  function ScoreStep(s: GameState, leftExit: bool, rightExit: bool): (t: GameState)
    ensures t.playerPos == s.playerPos && t.aiPos == s.aiPos
    ensures (leftExit || rightExit) <==> ((t.aiScore != s.aiScore) != (t.playerScore != s.playerScore))
    ensures !leftExit && !rightExit ==> t == s
    ensures leftExit ==> t.aiScore == Inc8(s.aiScore) && t.playerScore == s.playerScore
    ensures !leftExit && rightExit ==> t.playerScore == Inc8(s.playerScore) && t.aiScore == s.aiScore
  {
    if leftExit || rightExit then
      if leftExit then s.(aiScore := Inc8(s.aiScore))
      else s.(playerScore := Inc8(s.playerScore))
    else s
  }

  // ---------------------------------------------------------------------
  // Hit bands

  /** A closed vertical interval of screen rows. */
  datatype Band = Band(top: int, bottom: int)
  {
    predicate Contains(y: real)
    {
      top as real <= y <= bottom as real
    }

    function Height(): int
    {
      bottom - top
    }
  }

  /** The rows where the ball counts as touching the player's paddle: the
      paddle enlarged by 4 pixels at each end. */
  function PlayerBand(pos: int): (b: Band)
    ensures b.top < pos && pos + PADDLE_HEIGHT < b.bottom
    ensures pos - b.top == 4 && b.bottom - (pos + PADDLE_HEIGHT) == 4
  {
    Band(pos - 4, pos + PADDLE_HEIGHT + 4)
  }

  /** The rows where the ball counts as touching the AI paddle: exactly the
      paddle. */
  function AiBand(pos: int): (b: Band)
    ensures b.Contains(pos as real) && b.Contains((pos + PADDLE_HEIGHT) as real)
    ensures !b.Contains((pos - 1) as real) && !b.Contains((pos + PADDLE_HEIGHT + 1) as real)
    ensures b.Height() == PADDLE_HEIGHT
  {
    Band(pos, pos + PADDLE_HEIGHT)
  }

  /** For equal positions the player's band holds the AI's band, holds
      exactly 4 more pixels at each end, and is 8 pixels taller. */
  lemma PlayerBandEnlargesAiBand(pos: int, y: real)
    ensures AiBand(pos).Contains(y) ==> PlayerBand(pos).Contains(y)
    ensures PlayerBand(pos).Contains(y) <==>
              AiBand(pos).Contains(y)
              || ((pos - 4) as real <= y < pos as real)
              || ((pos + PADDLE_HEIGHT) as real < y <= (pos + PADDLE_HEIGHT + 4) as real)
    ensures PlayerBand(pos).Contains((pos - 4) as real) && !AiBand(pos).Contains((pos - 4) as real)
    ensures PlayerBand(pos).Height() == AiBand(pos).Height() + 8
  {
  }

  // ---------------------------------------------------------------------
  // Frames

  /** What one frame needs from outside the integer state: the two keys,
      whether the ball crossed the left or the right back wall, and the
      ball's y when the AI moves. */
  datatype FrameInput = FrameInput(down: bool, up: bool, leftExit: bool, rightExit: bool, ballY: real)

  /** One frame, in the order the loop runs them: player, ball (scoring),
      AI. */
  function Frame(limit: int, s: GameState, f: FrameInput): (t: GameState)
    ensures t.playerPos == PlayerStep(s.playerPos, limit, f.down, f.up)
    ensures t.aiPos == AiStep(s.aiPos, limit, f.ballY)
    ensures t.playerScore == ScoreStep(s, f.leftExit, f.rightExit).playerScore
    ensures t.aiScore == ScoreStep(s, f.leftExit, f.rightExit).aiScore
  {
    var afterPlayer := s.(playerPos := PlayerStep(s.playerPos, limit, f.down, f.up));
    var afterBall := ScoreStep(afterPlayer, f.leftExit, f.rightExit);
    afterBall.(aiPos := AiStep(afterBall.aiPos, limit, f.ballY))
  }

  /** The state after a finite sequence of frames. */
  function Run(limit: int, s: GameState, frames: seq<FrameInput>): GameState
    decreases |frames|
  {
    if frames == [] then s
    else Frame(limit, Run(limit, s, frames[..|frames| - 1]), frames[|frames| - 1])
  }

  /** Running two stretches of frames one after the other is running their
      concatenation: the loop's state carries everything a frame needs. */
  lemma {:induction false} RunConcat(limit: int, s: GameState, a: seq<FrameInput>, b: seq<FrameInput>)
    ensures Run(limit, s, a + b) == Run(limit, Run(limit, s, a), b)
    decreases |b|
  {
    if b == [] {
      assert a + b == a;
    } else {
      assert (a + b)[..|a + b| - 1] == a + b[..|b| - 1];
      assert (a + b)[|a + b| - 1] == b[|b| - 1];
      RunConcat(limit, s, a, b[..|b| - 1]);
    }
  }

  /** Whatever the keys and the ball do, both paddles stay on screen. */
  lemma {:induction false} RunKeepsOnScreen(limit: int, s: GameState, frames: seq<FrameInput>)
    requires ValidLimit(limit) && OnScreen(s.playerPos, limit) && OnScreen(s.aiPos, limit)
    ensures var t := Run(limit, s, frames);
      OnScreen(t.playerPos, limit) && OnScreen(t.aiPos, limit)
    decreases |frames|
  {
    if frames != [] {
      var f := frames[|frames| - 1];
      RunKeepsOnScreen(limit, s, frames[..|frames| - 1]);
      var u := Run(limit, s, frames[..|frames| - 1]);
      PlayerStepKeepsOnScreen(u.playerPos, limit, f.down, f.up);
      AiStepDirection(u.aiPos, limit, f.ballY);
    }
  }

  /** Number of frames whose ball left through the left wall. */
  function LeftExits(frames: seq<FrameInput>): (n: nat)
    ensures n <= |frames|
    decreases |frames|
  {
    if frames == [] then 0
    else LeftExits(frames[..|frames| - 1]) + (if frames[|frames| - 1].leftExit then 1 else 0)
  }

  /** Number of frames whose ball left through the right wall only. */
  function RightOnlyExits(frames: seq<FrameInput>): (n: nat)
    ensures n + LeftExits(frames) <= |frames|
    decreases |frames|
  {
    if frames == [] then 0
    else
      var f := frames[|frames| - 1];
      RightOnlyExits(frames[..|frames| - 1]) + (if !f.leftExit && f.rightExit then 1 else 0)
  }

  /** Each score is its starting value plus the points won, modulo 256. */
  lemma {:induction false} RunScores(limit: int, s: GameState, frames: seq<FrameInput>)
    ensures Run(limit, s, frames).aiScore == (s.aiScore + LeftExits(frames)) % 0x100
    ensures Run(limit, s, frames).playerScore == (s.playerScore + RightOnlyExits(frames)) % 0x100
    decreases |frames|
  {
    if frames != [] {
      var prefix := frames[..|frames| - 1];
      RunScores(limit, s, prefix);
      ModIncrement(s.aiScore + LeftExits(prefix));
      ModIncrement(s.playerScore + RightOnlyExits(prefix));
    }
  }

  /** Incrementing a residue modulo 256 tracks incrementing the number. */
  lemma ModIncrement(n: nat)
    ensures Inc8(n % 0x100) == (n + 1) % 0x100
  {
  }
}
