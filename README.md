# Sidestep — a verified model of the game session

Sidestep is a small pygame game. The player moves a sprite (`player.png`, or
a red triangle when the image is missing) left and right along the bottom of a
400 × 600 window and dodges one falling obstacle. For collisions the player is
a 25 × 25 square and the obstacle a 50 × 50 square. An
obstacle that leaves the bottom of the screen scores a point and respawns at
the top with a random column and a random speed in [0.6, 1.5]. A hit costs
one of three lives and makes the player immortal for 3 seconds, during which
the player flickers every 0.2 seconds. Losing the last life shows the
GAME_OVER screen. SPACE starts the game from the START screen and restarts
it from GAME_OVER. ESC or closing the window ends the program.

The whole game is one `while running:` loop over module-level variables in
`Sidestep.py`. This project models that loop's state and transitions in
three modules:

- `Rules` (`rules.dfy`) holds the constants and the session state as a value
  (`Session`, one field per module variable). It gives the pure transitions:
  key press, key release, window close, and the PLAYING frame, block by block
  (`MovePlayer`, `MoveObstacle`, `UpdateImmortality`, `Collide`, `Respawn`,
  composed in `Step`). `Run` feeds the game a sequence of inputs.
- `Properties` (`properties.dfy`) proves what holds across frames and events.
  It covers the invariant every reachable session keeps, the grace period
  after a hit, the strict hit test, score and respawn, restart, and the
  consequences of a restart that keeps the lives.
- `Corrected` (`corrected.dfy`) is the game with the restart the code
  evidently intends, one that also gives back the lives (see "## Findings").
- `Game` (`game.dfy`) is the loop as the source writes it: a class
  `GameSession` whose fields are reassigned in place. Each method does its
  updates step by step in the source's order and ends in the state the
  matching `Rules` function prescribes. `Run` is the driver loop.

The clock reading `time.time()` and the random draws are parameters. An
obstacle column is an `int` in [0, 350]. A speed is a `real` in [0.6, 1.5].

Behaviours of the code a reader might not expect, all modelled as written:

- A restart does not reset `obstacle_speed`; the obstacle keeps the speed it
  had when the game was lost.
- A restart puts the player at y = 575 (`HEIGHT - PLAYER_SIZE`), not at the
  start-up row 555.
- `player_visible` can stay false after immortality ends, when the last
  flicker hid the player. The player is still drawn, because a mortal player
  is always drawn (`Properties.HiddenFlagOutlivesImmortality`).
- A restart does not reset the lives, so a restarted game starts with 0
  lives. The next hit then takes lives to -1, and the `player_lives == 0` test
  never fires again, so the restarted game can never be lost
  (`Properties.RestartedGameNeverEnds`). It does not re-enter GAME_OVER on the
  next hit. This is a likely defect of the source; `Corrected` models the fix.

## Model

| member | source | states |
|---|---|---|
| Rules.Initial | Sidestep.py:64-86 | the start-up session: player at (188, 555) with speed 0, START phase, running, 3 lives, score 0, mortal and visible with both timers at 0, no key held, obstacle at the drawn column at y = 0 with the minimum speed; it satisfies the invariant |
| Rules.Velocity | Sidestep.py:114-120 | the speed is -0.7 iff only left is held, 0.7 iff only right is held, and 0 iff both or neither are held |
| Rules.Clamp | Sidestep.py:125-126 | the result lies in [0, 375]; it is the input when the input is in range, 0 below, and 375 above |
| Rules.MovePlayer | Sidestep.py:113-126 | only the player's x and speed change; the speed is the held-key velocity; x stays on screen, moves by at most 0.7, moves by exactly the speed when that stays in range, and stops exactly at 0 or 375 when the move would cross that edge |
| Rules.MoveObstacle | Sidestep.py:128-129 | only obstacle_y changes, and it grows by the obstacle's speed |
| Rules.UpdateImmortality | Sidestep.py:131-139 | only the three immortality fields change; the player stays immortal iff it was immortal and less than 3 s have passed since the hit; visibility toggles iff immortal and at least 0.2 s have passed since the last flash, and the flash time becomes `now` exactly then |
| Rules.Overlaps | Sidestep.py:143-147 | the four strict comparisons hold iff the player's corner lies strictly inside the obstacle square grown by the player's size up and to the left |
| Rules.Hits | Sidestep.py:143-148 | an immortal player is never hit; a mortal player is hit iff the two squares overlap |
| Rules.Collide | Sidestep.py:142-157 | without a hit nothing changes; a hit changes only lives, immortality, its start time and the phase: one life fewer, immortal from `now`; the phase becomes GAME_OVER iff a hit brings lives to exactly 0 |
| Rules.Respawn | Sidestep.py:159-164 | an obstacle still on screen (y <= 600) changes nothing; one below it adds one point and respawns at y = 0 with the drawn column and speed; afterwards y <= 600 |
| Rules.Step | Sidestep.py:113-164 | a PLAYING frame keeps the player on screen, costs at most one life, and ends the game iff it costs the last life |
| Rules.Drawn | Sidestep.py:171-174 | a mortal player is always drawn; an immortal player is drawn iff the flicker shows it |
| Rules.Restart | Sidestep.py:215-226 | SPACE on GAME_OVER puts the player at (188, 575) with speed 0, the obstacle at the drawn column at y = 0, score 0, phase PLAYING |
| Rules.KeyDown | Sidestep.py:97-106 | a key press stops the loop iff it is ESC, never changes the lives, and never leaves PLAYING |
| Rules.KeyUp | Sidestep.py:107-111 | in PLAYING a release clears exactly the flag of its own direction (left or A, right or D); outside PLAYING it changes nothing; only the two flags ever change |
| Rules.Quit | Sidestep.py:94-95 | after closing the window `running` is false, and nothing else has changed |
| Rules.Frame | Sidestep.py:113-213 | only the PLAYING phase changes state on a frame; a frame never raises the lives, never lowers the score, never touches `running`, and keeps the invariant |
| Rules.Apply | Sidestep.py:90-111 | no single input raises the lives, and every input keeps the invariant |
| Rules.Run | Sidestep.py:89-228 | over any inputs, the lives never rise |
| Properties.OverlapsIffCommonPoint | Sidestep.py:143-147 | the four strict comparisons hold exactly when the two squares share an interior point |
| Properties.TouchingIsNoHit | Sidestep.py:143-147 | squares that only touch along an edge do not overlap and share no interior point |
| Properties.StepKeeps | Sidestep.py:113-164 | a PLAYING frame leaves the player's row, `running` and the held keys unchanged, and never returns to START |
| Properties.StepScores | Sidestep.py:128-164 | a PLAYING frame adds a point iff the obstacle's fall takes it past y = 600; the obstacle then respawns with the drawn column and speed, and otherwise it is lower by exactly its speed with column and speed unchanged |
| Properties.StepImmortality | Sidestep.py:131-157 | a mortal player does not flicker; before 3 s have passed an immortal player stays immortal with the same start time and lives; after that it is immortal only through a new hit on this frame, which cost a life and restarted the timer at `now` |
| Properties.StepPreservesInv | Sidestep.py:113-164 | a PLAYING frame keeps the invariant of reachable sessions |
| Properties.StartSpaceOnlyStarts | Sidestep.py:199-201 | SPACE on the START screen changes the phase to PLAYING and nothing else |
| Properties.GameOverSpaceRestarts | Sidestep.py:215-226 | SPACE on the GAME_OVER screen is exactly a restart |
| Properties.KeyDownLatches | Sidestep.py:101-106 | in PLAYING a press sets exactly its own direction's flag (and ESC stops the loop); outside PLAYING a key other than SPACE or ESC changes nothing |
| Properties.EscapeIsQuit | Sidestep.py:98-99 | ESC, in every phase, changes only `running`, to false: the same as closing the window |
| Properties.CloseEndsRun | Sidestep.py:89-95 | after a window close the loop reads no further input: the run ends in the closed session whatever follows |
| Properties.EscapeEndsRun | Sidestep.py:89-99 | after ESC the loop reads no further input: the run ends in the session with only `running` cleared |
| Properties.RestartKeeps | Sidestep.py:215-226 | a restart keeps the lives, the obstacle speed, the immortality fields, the held keys and `running` |
| Properties.RunPreservesInv | Sidestep.py:90-228 | from a session satisfying the invariant (player within [0, 375], obstacle on its column range and above y = 600, speed in range, at most 3 lives, GAME_OVER only with 0 lives), no input sequence breaks it |
| Properties.GracePeriod | Sidestep.py:131-157 | while every frame's clock is within 3 s of the hit, no input costs a life and the player stays immortal in PLAYING with the same start time |
| Properties.AtMostOnePerFrame | Sidestep.py:142-164 | over n frames with no key events the score rises by at most n and the lives fall by at most n, and neither moves the other way |
| Properties.NoGameOverWithoutLives | Sidestep.py:150-157 | from a session outside GAME_OVER with lives <= 0, no input sequence reaches GAME_OVER, and the lives stay <= 0 |
| Properties.RestartedGameNeverEnds | Sidestep.py:215-226 | a restart from GAME_OVER gives a PLAYING session with 0 lives, from which GAME_OVER is never reached again |
| Properties.HiddenFlagOutlivesImmortality | Sidestep.py:131-139 | immortality can end on the same frame that the flicker hides the player, leaving a mortal player with `visible` false who is still drawn |
| Corrected.RestartWithLives | Sidestep.py:216-226 | the corrected restart is the restart of the code with the lives set back to 3 |
| Corrected.KeyDownWithLives | Sidestep.py:215-228 | a key press as written, except that SPACE on GAME_OVER is the corrected restart |
| Corrected.ApplyWithLives | Sidestep.py:90-111 | every input acts as written, except SPACE on GAME_OVER |
| Corrected.RunWithLives | Sidestep.py:89-228 | a stopped loop reads no input |
| Corrected.InitialLivesInv | Sidestep.py:64-86 | the start-up session keeps its lives in [0, 3] and is not over |
| Corrected.ApplyWithLivesKeepsLives | Sidestep.py:142-157 | with the corrected restart, one input keeps the lives in [0, 3] with GAME_OVER exactly at 0 lives, and a restart gives back all 3 lives |
| Corrected.RunWithLivesKeepsLives | Sidestep.py:150-157 | with the corrected restart, every reachable session has lives in [0, 3] and shows GAME_OVER exactly when none are left, so a restarted game can be lost again |
| Game.GameSession.constructor | Sidestep.py:64-89 | the fields hold the start-up session, which satisfies the invariant |
| Game.GameSession.OnKeyDown | Sidestep.py:97-106 | the fields end as `Rules.KeyDown` prescribes for the old fields |
| Game.GameSession.Restart | Sidestep.py:216-226 | the fields end as `Rules.Restart` prescribes |
| Game.GameSession.OnKeyUp | Sidestep.py:107-111 | the fields end as `Rules.KeyUp` prescribes |
| Game.GameSession.OnQuit | Sidestep.py:94-95 | the fields end as `Rules.Quit` prescribes |
| Game.GameSession.Step | Sidestep.py:113-164 | the fields end as `Rules.Step` prescribes for the frame's clock and draws |
| Game.GameSession.MovePlayer | Sidestep.py:114-126 | the fields end as `Rules.MovePlayer` prescribes |
| Game.GameSession.MoveObstacle | Sidestep.py:128-129 | the fields end as `Rules.MoveObstacle` prescribes |
| Game.GameSession.UpdateImmortality | Sidestep.py:131-139 | the fields end as `Rules.UpdateImmortality` prescribes |
| Game.GameSession.Collide | Sidestep.py:142-157 | the fields end as `Rules.Collide` prescribes |
| Game.GameSession.Respawn | Sidestep.py:159-164 | the fields end as `Rules.Respawn` prescribes |
| Game.GameSession.OnFrame | Sidestep.py:113-213 | the fields end as `Rules.Frame` prescribes: a PLAYING step, or no change on the other screens |
| Game.GameSession.Run | Sidestep.py:89-228 | the loop ends in the state `Rules.Run` prescribes for the inputs, and it keeps the invariant |

## Left out

- Drawing, fonts, images and the display (lines 27-62, 166-189, 191-197, 205-213) are left out. Only the decision whether the player is drawn is modelled, as `Rules.Drawn`.
- Each iteration of the loop drains pygame's event queue once, and on the START and GAME_OVER screens it drains it a second time (lines 199 and 215). The model handles one event at a time, by the handler of the phase the session is in. Which of the two drains receives a given event depends on timing, so the model leaves it out. The second drain ignores everything but SPACE and ESC, so it also throws away a window close (`pygame.QUIT`) and key releases that reach it; the model's `Close` and `Release` are always handled.
- Rules.Run: the inputs are a flat sequence, not grouped into loop iterations. In the source, the rest of an iteration's events and that iteration's frame still run after ESC or a window close. In the model, `Run` stops at the first input after `running` becomes false.
- `time.time()` is the `now` parameter of a frame. Nothing constrains it to increase.
- `random.randint` and `random.uniform` are parameters: the first obstacle column (line 76) is `obstacleX` of `Rules.Initial` and `obstacleX0` of the `GameSession` constructor, and the later draws are `restartX`, `newX` and `newSpeed`. Their preconditions give the ranges the source draws from.
- Positions, speeds and times are exact reals. Floating-point rounding of `player_x += player_speed_x` and of the timer differences is not modelled.

## Findings

| source | as written | input that shows it | evidently intended | confidence | as-written member | corrected member |
|---|---|---|---|---|---|---|
| Sidestep.py:216-226 | SPACE on GAME_OVER restarts without resetting `player_lives`, which is 0; the next hit takes it to -1 and the `player_lives == 0` test at line 156 never fires again | lose all 3 lives, press SPACE, then collide with the obstacle any number of times: the game never ends | the restart also sets the lives back to 3, so the restarted game can be lost again | high, not executed | Properties.RestartedGameNeverEnds | Corrected.RunWithLivesKeepsLives |

`Rules`, `Properties` and `Game` keep the restart as written, because they
model the code; `Corrected` runs the same rules with the intended restart.
