// Properties of the Sidestep rules that relate several frames or events, or
// that give a second, independent reading of a single rule.
module Properties {
  import opened Rules

  // A point strictly inside the player square whose top-left corner is (px, py).
  predicate InPlayer(px: real, py: real, x: real, y: real)
  {
    px < x < px + PLAYER_SIZE_R && py < y < py + PLAYER_SIZE_R
  }

  // A point strictly inside the obstacle square whose top-left corner is (ox, oy).
  predicate InObstacle(ox: real, oy: real, x: real, y: real)
  {
    ox < x < ox + OBSTACLE_SIZE_R && oy < y < oy + OBSTACLE_SIZE_R
  }

  // The strict four-sided overlap test holds exactly when the two squares
  // share an interior point, so squares that only touch along an edge or at
  // a corner never collide.
  lemma OverlapsIffCommonPoint(px: real, py: real, ox: real, oy: real)
    ensures Overlaps(px, py, ox, oy) <==>
              exists x, y :: InPlayer(px, py, x, y) && InObstacle(ox, oy, x, y)
  {
    if Overlaps(px, py, ox, oy) {
      var left := if px < ox then ox else px;
      var right := if px + PLAYER_SIZE_R < ox + OBSTACLE_SIZE_R
                   then px + PLAYER_SIZE_R else ox + OBSTACLE_SIZE_R;
      var top := if py < oy then oy else py;
      var bottom := if py + PLAYER_SIZE_R < oy + OBSTACLE_SIZE_R
                    then py + PLAYER_SIZE_R else oy + OBSTACLE_SIZE_R;
      var x, y := (left + right) / 2.0, (top + bottom) / 2.0;
      assert InPlayer(px, py, x, y) && InObstacle(ox, oy, x, y);
    }
  }

  // Touching edges, the boundary case of the strict test.
  lemma TouchingIsNoHit(px: real, py: real, ox: real, oy: real)
    requires px + PLAYER_SIZE_R == ox || ox + OBSTACLE_SIZE_R == px ||
             py + PLAYER_SIZE_R == oy || oy + OBSTACLE_SIZE_R == py
    ensures !Overlaps(px, py, ox, oy)
    ensures !exists x, y :: InPlayer(px, py, x, y) && InObstacle(ox, oy, x, y)
  {
    OverlapsIffCommonPoint(px, py, ox, oy);
  }

  // What a PLAYING frame leaves alone: the player's row, the loop flag, the
  // held movement keys; and it never returns to the START screen.
  lemma StepKeeps(s: Session, now: real, newX: int, newSpeed: real)
    requires s.phase == Playing && ValidObstacleX(newX) && ValidObstacleSpeed(newSpeed)
    ensures var r := Step(s, now, newX, newSpeed);
            && r.playerY == s.playerY && r.running == s.running
            && r.movingLeft == s.movingLeft && r.movingRight == s.movingRight
            && r.phase != Start
  {
  }

  // The obstacle falls by its speed each frame; it scores a point and
  // respawns at the top with the fresh draws exactly when that fall takes it
  // past the bottom edge.
  lemma StepScores(s: Session, now: real, newX: int, newSpeed: real)
    requires s.phase == Playing && ValidObstacleX(newX) && ValidObstacleSpeed(newSpeed)
    ensures var r := Step(s, now, newX, newSpeed);
            && (r.score == s.score + 1 <==> s.obstacleY + s.obstacleSpeed > HEIGHT_R)
            && (r.score == s.score <==> s.obstacleY + s.obstacleSpeed <= HEIGHT_R)
            && (s.obstacleY + s.obstacleSpeed > HEIGHT_R ==>
                  r.obstacleX == newX && r.obstacleY == 0.0 && r.obstacleSpeed == newSpeed)
            && (s.obstacleY + s.obstacleSpeed <= HEIGHT_R ==>
                  r.obstacleX == s.obstacleX && r.obstacleY == s.obstacleY + s.obstacleSpeed &&
                  r.obstacleSpeed == s.obstacleSpeed)
  {
  }

  // A mortal player does not flicker; once the immortality duration has
  // passed, the player is immortal after the frame only if this very frame's
  // collision made it so.
  lemma StepImmortality(s: Session, now: real, newX: int, newSpeed: real)
    requires s.phase == Playing && ValidObstacleX(newX) && ValidObstacleSpeed(newSpeed)
    ensures var r := Step(s, now, newX, newSpeed);
            && (!s.immortal ==> r.visible == s.visible && r.lastFlash == s.lastFlash)
            && (now - s.immortalStart >= IMMORTALITY_DURATION && r.immortal ==>
                  r.immortalStart == now && r.lives == s.lives - 1)
            && (s.immortal && now - s.immortalStart < IMMORTALITY_DURATION ==>
                  r.immortal && r.immortalStart == s.immortalStart && r.lives == s.lives)
  {
  }

  // A PLAYING frame keeps every reachable session reachable.
  lemma StepPreservesInv(s: Session, now: real, newX: int, newSpeed: real)
    requires Inv(s) && s.phase == Playing && ValidObstacleX(newX) && ValidObstacleSpeed(newSpeed)
    ensures Inv(Step(s, now, newX, newSpeed))
  {
  }

  // SPACE on the START screen only switches to PLAYING.
  lemma StartSpaceOnlyStarts(s: Session, restartX: int)
    requires s.phase == Start && ValidObstacleX(restartX)
    ensures KeyDown(s, Space, restartX) == s.(phase := Playing)
  {
  }

  // SPACE on the GAME_OVER screen is a restart.
  lemma GameOverSpaceRestarts(s: Session, restartX: int)
    requires s.phase == GameOver && ValidObstacleX(restartX)
    ensures KeyDown(s, Space, restartX) == Restart(s, restartX)
  {
  }

  // Movement keys are latched only while PLAYING; elsewhere a key other than
  // SPACE and ESC changes nothing.
  lemma KeyDownLatches(s: Session, key: Key, restartX: int)
    requires ValidObstacleX(restartX)
    ensures var r := KeyDown(s, key, restartX);
            && (s.phase == Playing ==>
                  r == s.(movingLeft := s.movingLeft || IsLeftKey(key),
                          movingRight := s.movingRight || IsRightKey(key),
                          running := s.running && key != Escape))
            && (s.phase != Playing && key != Space && key != Escape ==> r == s)
  {
  }

  // ESC has the same effect as closing the window, in every phase: only
  // `running` changes, to false.
  lemma EscapeIsQuit(s: Session, restartX: int)
    requires ValidObstacleX(restartX)
    ensures KeyDown(s, Escape, restartX) == Quit(s)
  {
  }

  // Closing the window ends the loop: no later input is read.
  lemma CloseEndsRun(s: Session, rest: seq<Input>)
    requires ValidInputs(rest)
    ensures Run(s, [Close] + rest) == Quit(s)
  {
    assert ([Close] + rest)[1..] == rest;
  }

  // So does ESC.
  lemma EscapeEndsRun(s: Session, restartX: int, rest: seq<Input>)
    requires ValidObstacleX(restartX) && ValidInputs(rest)
    ensures Run(s, [Press(Escape, restartX)] + rest) == Quit(s)
  {
    assert ([Press(Escape, restartX)] + rest)[1..] == rest;
  }

  // What a restart carries over from the lost game.
  lemma RestartKeeps(s: Session, newX: int)
    requires ValidObstacleX(newX)
    ensures var r := Restart(s, newX);
            && r.lives == s.lives && r.obstacleSpeed == s.obstacleSpeed
            && r.immortal == s.immortal && r.immortalStart == s.immortalStart
            && r.lastFlash == s.lastFlash && r.visible == s.visible
            && r.movingLeft == s.movingLeft && r.movingRight == s.movingRight
            && r.running == s.running
  {
  }

  // Every reachable session satisfies Inv: it holds initially (see Initial)
  // and no sequence of inputs breaks it. In particular the player never
  // leaves the screen, whatever keys are held.
  lemma {:induction false} RunPreservesInv(s: Session, inputs: seq<Input>)
    requires Inv(s) && ValidInputs(inputs)
    ensures Inv(Run(s, inputs))
    decreases |inputs|
  {
    if inputs != [] && s.running {
      RunPreservesInv(Apply(s, inputs[0]), inputs[1..]);
    }
  }

  // Every Tick input in `inputs` reads the clock before `deadline`.
  predicate TicksBefore(inputs: seq<Input>, deadline: real)
  {
    forall k | 0 <= k < |inputs| :: inputs[k].Tick? ==> inputs[k].now < deadline
  }

  // The grace period: once a hit has made the player immortal, no input
  // costs another life until IMMORTALITY_DURATION seconds after the hit,
  // however long the two squares keep overlapping.
  lemma {:induction false} GracePeriod(s: Session, inputs: seq<Input>)
    requires s.phase == Playing && s.immortal && ValidInputs(inputs)
    requires TicksBefore(inputs, s.immortalStart + IMMORTALITY_DURATION)
    ensures Run(s, inputs).lives == s.lives
    ensures Run(s, inputs).phase == Playing && Run(s, inputs).immortal
    ensures Run(s, inputs).immortalStart == s.immortalStart
    decreases |inputs|
  {
    if inputs != [] && s.running {
      var next := Apply(s, inputs[0]);
      assert next.lives == s.lives && next.phase == Playing && next.immortal;
      assert next.immortalStart == s.immortalStart;
      assert TicksBefore(inputs[1..], s.immortalStart + IMMORTALITY_DURATION);
      GracePeriod(next, inputs[1..]);
    }
  }

  // Every input is a frame: no key is pressed or released.
  predicate OnlyTicks(inputs: seq<Input>)
  {
    forall k | 0 <= k < |inputs| :: inputs[k].Tick?
  }

  // Without key events the score never drops and lives never rise, and each
  // frame adds at most one point and costs at most one life.
  lemma {:induction false} AtMostOnePerFrame(s: Session, inputs: seq<Input>)
    requires ValidInputs(inputs) && OnlyTicks(inputs)
    ensures s.score <= Run(s, inputs).score <= s.score + |inputs|
    ensures s.lives - |inputs| <= Run(s, inputs).lives <= s.lives
    decreases |inputs|
  {
    if inputs != [] && s.running {
      var next := Apply(s, inputs[0]);
      assert next.score <= s.score + 1 && next.lives >= s.lives - 1;
      AtMostOnePerFrame(next, inputs[1..]);
    }
  }

  // Once lives are zero or below outside GAME_OVER, GAME_OVER is never
  // reached again: the game loses a life only on a hit, and a hit ends the
  // game only when it brings lives to exactly zero.
  lemma {:induction false} NoGameOverWithoutLives(s: Session, inputs: seq<Input>)
    requires s.lives <= 0 && s.phase != GameOver && ValidInputs(inputs)
    ensures Run(s, inputs).phase != GameOver
    ensures Run(s, inputs).lives <= 0
    decreases |inputs|
  {
    if inputs != [] && s.running {
      var next := Apply(s, inputs[0]);
      assert next.phase != GameOver;
      NoGameOverWithoutLives(next, inputs[1..]);
    }
  }

  // SPACE on the GAME_OVER screen restarts without giving lives back, so a
  // restarted game has no lives left and can never be lost again.
  lemma RestartedGameNeverEnds(s: Session, restartX: int, inputs: seq<Input>)
    requires Inv(s) && s.phase == GameOver && ValidObstacleX(restartX) && ValidInputs(inputs)
    ensures KeyDown(s, Space, restartX).lives == 0
    ensures KeyDown(s, Space, restartX).phase == Playing
    ensures Run(KeyDown(s, Space, restartX), inputs).phase != GameOver
  {
    NoGameOverWithoutLives(KeyDown(s, Space, restartX), inputs);
  }

  // A player whose immortality runs out on the same frame that the flicker
  // hides it keeps `visible == false` while mortal; it is drawn all the same,
  // because a mortal player is always drawn.
  lemma HiddenFlagOutlivesImmortality()
    ensures var s := Initial(0).(phase := Playing, immortal := true, immortalStart := 0.0,
                                  lastFlash := 2.8, visible := true);
            var r := Step(s, 3.0, 0, OBSTACLE_SPEED_MIN);
            !r.immortal && !r.visible && Drawn(r)
  {
  }
}
