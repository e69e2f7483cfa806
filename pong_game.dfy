/** The game's process-wide integer state as an object whose methods update
    it in place, one method per routine of the frame loop. */
module PongGame {
  import opened MachineInts
  import opened PongRules

  class Game {
    /** The platform's screen height, `LCD_HEIGHT`. */
    const lcdHeight: int

    var playerPos: Int16
    var aiPos: Int16
    var playerScore: Uint8
    var aiScore: Uint8

    /** The lowest position a paddle's top edge may take. */
    function Limit(): int
    {
      lcdHeight - PADDLE_HEIGHT
    }

    /** Both paddles are on screen, on an even row. */
    ghost predicate Valid()
      reads this
    {
      ValidLimit(Limit()) && OnScreen(playerPos, Limit()) && OnScreen(aiPos, Limit())
    }

    /** The integer state as a value. */
    function State(): GameState
      reads this
    {
      GameState(playerPos, aiPos, playerScore, aiScore)
    }

    /** Program start: paddles at the top, scores zero. On the calculator
        the requirement on `lcdHeight` holds: see `CeLimitIsValid`. */
    constructor (lcdHeight: int)
      requires ValidLimit(lcdHeight - PADDLE_HEIGHT)
      ensures this.lcdHeight == lcdHeight
      ensures State() == Initial
      ensures Valid()
    {
      this.lcdHeight := lcdHeight;
      playerPos, aiPos := 0, 0;
      playerScore, aiScore := 0, 0;
    }

    /** `move_player`: the held keys move the player's paddle. */
    method MovePlayer(down: bool, up: bool)
      modifies this`playerPos
      ensures State() == old(State()).(playerPos := PlayerStep(old(playerPos), Limit(), down, up))
      ensures old(Valid()) ==> Valid()
    {
      if down && playerPos != Limit() {
        playerPos := Wrap16(playerPos + 2);
      }
      if up && playerPos != 0 {
        playerPos := Wrap16(playerPos - 2);
      }
      if old(Valid()) {
        PlayerStepKeepsOnScreen(old(playerPos), Limit(), down, up);
      }
    }

    /** `move_ai`: the AI paddle follows the ball's y. */
    method MoveAi(ballY: real)
      modifies this`aiPos
      ensures State() == old(State()).(aiPos := AiStep(old(aiPos), Limit(), ballY))
      ensures old(Valid()) ==> Valid()
    {
      var centre := (aiPos + PADDLE_HEIGHT / 2) as real;
      if ballY < centre && aiPos != 0 {
        aiPos := Wrap16(aiPos - 2);
      } else if ballY > centre && aiPos != Limit() {
        aiPos := Wrap16(aiPos + 2);
      }
      if old(Valid()) {
        AiStepDirection(old(aiPos), Limit(), ballY);
      }
    }

    /** The back-wall branch of `move_ball`: a left exit scores for the AI,
        otherwise a right exit scores for the player. */
    method ScoreBackWall(leftExit: bool, rightExit: bool)
      modifies this`playerScore, this`aiScore
      ensures State() == ScoreStep(old(State()), leftExit, rightExit)
      ensures old(Valid()) ==> Valid()
    {
      if leftExit || rightExit {
        if leftExit {
          aiScore := Inc8(aiScore);
        } else if rightExit {
          playerScore := Inc8(playerScore);
        }
      }
    }

    /** A finite stretch of the main loop: per frame the player moves, the
        ball may score, and the AI moves. */
    method Play(frames: seq<FrameInput>)
      modifies this`playerPos, this`aiPos, this`playerScore, this`aiScore
      ensures State() == Run(Limit(), old(State()), frames)
      ensures old(Valid()) ==> Valid()
    {
      var i := 0;
      while i < |frames|
        invariant 0 <= i <= |frames|
        invariant State() == Run(Limit(), old(State()), frames[..i])
        invariant old(Valid()) ==> Valid()
      {
        var f := frames[i];
        MovePlayer(f.down, f.up);
        ScoreBackWall(f.leftExit, f.rightExit);
        MoveAi(f.ballY);
        assert frames[..i + 1][..i] == frames[..i];
        i := i + 1;
      }
      assert frames[..|frames|] == frames;
    }
  }
}
