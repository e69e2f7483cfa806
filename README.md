# TI-Pong: integer bookkeeping of the frame loop

TI-Pong is a two-paddle ball game for the TI-84 Plus CE calculator. Each
frame, the main loop moves the player's paddle from the keypad
(`move_player`), moves the ball and scores a point when it reaches a back
wall (`move_ball`), and moves the AI paddle towards the ball (`move_ai`).

This project models the integer part of that loop. The state is the two
`int16_t` paddle positions and the two `uint8_t` scores.

- `machine_ints.dfy` (module `MachineInts`): the C types `int16_t` and
  `uint8_t`, with the conversions C does when a sum is stored back into them.
  `Wrap16` reduces modulo 2^16 into the signed range. `Inc8` is `++` on a
  `uint8_t`, so 255 becomes 0.
- `pong_rules.dfy` (module `PongRules`): the rules as pure functions.
  - `PlayerStep` and `AiStep` are the paddle steps.
  - `ScoreStep` is the back-wall scoring branch.
  - `PlayerBand` and `AiBand` are the vertical hit bands.
  - `Frame` and `Run` compose the steps for one frame and for a finite
    sequence of frames.
  - The lemmas state what the rules promise.
- `pong_game.dfy` (module `PongGame`): class `Game` holds the state as
  fields. Its methods update those fields in place, as the C routines update
  the globals, and each method's `ensures` ties the new state to the rule
  function.

The platform constant `LCD_HEIGHT` comes from `tice.h`, which is not part of
this model. It is a parameter of `Game`, and the model needs
`LCD_HEIGHT - PADDLE_HEIGHT` to be even and between 0 and 32767
(`ValidLimit`). On the TI-84 Plus CE it is 240 - 48 = 192 (`CeLimitIsValid`).

The paddle edges are tested with `!=`, not `<` or `>`. So a paddle stays on
screen only because it starts at 0, moves in steps of 2 and the bottom limit
is even. `RunKeepsOnScreen` proves this for any key and ball history.
`OddLimitOvershoots` shows that an odd limit would let the paddle walk off
the screen.

`move_player` tests its two keys one after the other, and the up test sees
the position the down test just produced. Holding both keys therefore leaves
the paddle where it is, except at the bottom edge: there the down move is
blocked and the up move is not, so the paddle rises by 2. A plain "clamped
move by the net direction" reading of the paddle rule would leave it in
place. The model follows the code. `PlayerStepVersusClamped` proves that
this bottom-edge case is the only place where the code and the clamped
reading differ.

## Model

| member | source | states |
|---|---|---|
| `MachineInts.Wrap16` | src/main.c:59-63 | storing into an `int16_t` gives a value in range congruent to the input modulo 2^16 (the two's-complement reduction; C leaves out-of-range conversions implementation-defined), and leaves in-range values unchanged |
| `MachineInts.Inc8` | src/main.c:179-180 | `++` on a `uint8_t` score adds 1 below 255, turns 255 into 0, and always changes the value |
| `PongRules.CeLimitIsValid` | src/main.c:45-47 | on the 240-pixel screen the lowest paddle position 240 - 48 = 192 is even and fits an `int16_t` |
| `PongRules.PlayerStep` | src/main.c:140-144 | the player's paddle moves by -2, 0 or +2 (in `int16_t` arithmetic), and does not move when no key is held |
| `PongRules.PlayerStepKeepsOnScreen` | src/main.c:140-144 | from an even position in `[0, limit]` the step lands on an even position in `[0, limit]`, exactly 2 or 0 away, with no wrap-around |
| `PongRules.PlayerStepKeys` | src/main.c:140-144 | no key: no move; down only: +2 unless at the bottom; up only: -2 unless at the top; both: no move except at the bottom, where it moves -2 |
| `PongRules.PlayerStepVersusClamped` | src/main.c:140-144 | the step equals a clamped move by the net key direction exactly when it is not the case of both keys held at the bottom edge |
| `PongRules.OddLimitOvershoots` | src/main.c:140-141 | with an odd limit, the down key takes the even position just before the limit to one past it, and from every even position past the limit (greater than it) it moves 2 further, so the `!=` stop relies on an even limit |
| `PongRules.AiStep` | src/main.c:153-156 | the AI paddle moves by -2, 0 or +2, stays when the ball is level with its centre `pos + 24`, and, when it moves, moves by -2 exactly when the ball is above the centre |
| `PongRules.AiStepDirection` | src/main.c:153-156 | on screen: -2 if and only if the ball is above the centre and the paddle is not at 0; +2 if and only if the ball is below the centre and the paddle is not at the bottom; otherwise no move; the result stays on screen |
| `PongRules.ScoreStep` | src/main.c:176-180 | an exit changes exactly one score and no exit changes nothing; a left exit adds 1 (mod 256) to the AI score and wins over a right exit; a right-only exit adds 1 to the player score; the paddles are untouched |
| `PongRules.PlayerBand` | src/main.c:203-204 | the player's hit band encloses the paddle's rows strictly, with exactly 4 extra rows above and 4 below |
| `PongRules.AiBand` | src/main.c:216-217 | the AI's hit band is exactly the paddle's rows: it contains the top and bottom row, not the rows just outside, and is `PADDLE_HEIGHT` tall |
| `PongRules.PlayerBandEnlargesAiBand` | src/main.c:200-218 | at equal positions the player's hit band contains the AI's band, adds exactly the 4 rows at each end, strictly contains it, and is 8 pixels taller |
| `PongRules.Frame` | src/main.c:124-126 | one frame sets the player's paddle by `PlayerStep`, the scores by `ScoreStep` and the AI paddle by `AiStep`, each from the state before the frame |
| `PongRules.Run` | src/main.c:112-131 | the state after a finite stretch of the loop, applying `Frame` to each frame in order; `RunConcat`, `RunKeepsOnScreen` and `RunScores` state its properties |
| `PongRules.RunConcat` | src/main.c:112-131 | running two stretches of frames one after the other gives the same state as running their concatenation |
| `PongRules.RunKeepsOnScreen` | src/main.c:112-131 | from on-screen paddles, after any finite sequence of frames (any keys, exits and ball positions) both paddles are still on screen and even |
| `PongRules.RunScores` | src/main.c:176-180 | after any sequence of frames the AI score is its start plus the number of left exits, and the player score its start plus the number of right-only exits, both modulo 256 |
| `PongGame.Game.constructor` | src/main.c:59-73 | the game starts with both paddles at 0 and both scores at 0, a state that satisfies the on-screen invariant |
| `PongGame.Game.MovePlayer` | src/main.c:137-148 | changes only `playerPos`, to `PlayerStep` of the old position and the keys, and keeps the invariant |
| `PongGame.Game.MoveAi` | src/main.c:150-160 | changes only `aiPos`, to `AiStep` of the old position and the ball's y, and keeps the invariant |
| `PongGame.Game.ScoreBackWall` | src/main.c:176-180 | changes only the two scores, as `ScoreStep` says, and keeps the invariant |
| `PongGame.Game.Play` | src/main.c:112-131 | running the frames in order (player, scoring, AI) leaves the state `Run` computes and keeps the invariant |

## Left out

- Ball motion, the top and bottom wall bounce, paddle deflection and spin (src/main.c:165-170, 207-209, 220-222) are `float` arithmetic. Dafny's `real` does not round like IEEE single precision, so they are not modelled.
- The x halves of the two collision tests (src/main.c:202, 215) subtract or add `1.0f` in `float`. Only the vertical band tests are modelled (`PlayerBand`, `AiBand`).
- The back-wall exit tests (src/main.c:176, 179-180) are `float` comparisons. `ScoreStep` and `ScoreBackWall` take their two outcomes as booleans.
- The ball's y that `move_ai` compares against is a `real` input. A NaN or infinite `float` is not modelled. The comparison with `ai_pos + 24` is exact, because that integer converts to `float` without rounding.
- Resetting the ball and randomising its velocity (src/main.c:95, 109-110, 183-188) use `srandom`, `random` and `rtc_Time`. These are library calls with no visible contract.
- Keypad scanning and the quit test (src/main.c:115-118) are not modelled. The two arrow keys are boolean inputs of each frame.
- Graphics calls and `draw_score` (src/main.c:98-106, 121, 130, 147, 159, 192, 226-235) are output into a library that is not part of this model.
- The endless main loop (src/main.c:112-131) is modelled as `Play` over a finite sequence of frames.
- `tice.h`, which defines `LCD_WIDTH` and `LCD_HEIGHT`, is not part of this model. `LCD_HEIGHT` is a constructor parameter. Within the modelled integer state, `LCD_WIDTH` only enters through the float exit and collision tests.
