// The game loop's state as the source keeps it: variables reassigned in
// place, frame after frame. Each method performs its update step by step, in
// the source's order, and is proved to land on the state the pure rules of
// module Rules prescribe.
module Game {
  import opened Rules
  import Properties

  class GameSession {
    var playerX: real
    var playerY: real
    var playerSpeedX: real
    var playerLives: int
    var playerImmortality: bool
    var playerImmortalityStartTime: real
    var lastFlashTime: real
    var playerVisible: bool
    var obstacleX: int
    var obstacleY: real
    var obstacleSpeed: real
    var score: nat
    var gameState: Phase
    var movingLeft: bool
    var movingRight: bool
    var running: bool

    // The current values of all the fields, as one Session.
    function State(): Session
      reads this
    {
      Session(playerX, playerY, playerSpeedX, playerLives,
              playerImmortality, playerImmortalityStartTime, lastFlashTime, playerVisible,
              obstacleX, obstacleY, obstacleSpeed, score, gameState,
              movingLeft, movingRight, running)
    }

    // The fields hold exactly the values of `s`.
    predicate Holds(s: Session)
      reads this
    {
      && playerX == s.playerX && playerY == s.playerY && playerSpeedX == s.playerSpeedX
      && playerLives == s.lives && playerImmortality == s.immortal
      && playerImmortalityStartTime == s.immortalStart && lastFlashTime == s.lastFlash
      && playerVisible == s.visible && obstacleX == s.obstacleX && obstacleY == s.obstacleY
      && obstacleSpeed == s.obstacleSpeed && score == s.score && gameState == s.phase
      && movingLeft == s.movingLeft && movingRight == s.movingRight && running == s.running
    }

    // The start-up values; `obstacleX0` is the first random obstacle column.
    constructor (obstacleX0: int)
      requires ValidObstacleX(obstacleX0)
      ensures Holds(Initial(obstacleX0))
      ensures Inv(State())
    {
      playerX := START_PLAYER_X;
      playerY := START_PLAYER_Y;
      playerSpeedX := 0.0;
      playerLives := STARTING_LIVES;
      playerImmortality := false;
      playerImmortalityStartTime := 0.0;
      lastFlashTime := 0.0;
      playerVisible := true;
      obstacleX := obstacleX0;
      obstacleY := 0.0;
      obstacleSpeed := OBSTACLE_SPEED_MIN;
      score := 0;
      gameState := Start;
      movingLeft := false;
      movingRight := false;
      running := true;
    }

    // A key press; `restartX` is the random obstacle column a restart uses.
    method OnKeyDown(key: Key, restartX: int)
      requires ValidObstacleX(restartX)
      modifies this
      ensures Holds(KeyDown(old(State()), key, restartX))
    {
      if key == Escape {
        running := false;
      }
      if gameState == Playing {
        if IsLeftKey(key) {
          movingLeft := true;
        }
        if IsRightKey(key) {
          movingRight := true;
        }
      } else if gameState == Start {
        if key == Space {
          gameState := Playing;
        }
      } else if key == Space {
        Restart(restartX);
      }
    }

    // SPACE on the GAME_OVER screen.
    method Restart(restartX: int)
      requires ValidObstacleX(restartX)
      modifies this
      ensures Holds(Rules.Restart(old(State()), restartX))
    {
      playerX, playerY, playerSpeedX := START_PLAYER_X, RESTART_PLAYER_Y, 0.0;
      obstacleX, obstacleY := restartX, 0.0;
      score := 0;
      gameState := Playing;
    }

    // A key release.
    method OnKeyUp(key: Key)
      modifies this
      ensures Holds(KeyUp(old(State()), key))
    {
      if gameState == Playing {
        if IsLeftKey(key) {
          movingLeft := false;
        }
        if IsRightKey(key) {
          movingRight := false;
        }
      }
    }

    // The window is closed.
    method OnQuit()
      modifies this
      ensures Holds(Quit(old(State())))
    {
      running := false;
    }

    // One PLAYING frame at clock reading `now`; (`newX`, `newSpeed`) are the
    // random draws used if the obstacle leaves the screen.
    method Step(now: real, newX: int, newSpeed: real)
      requires gameState == Playing
      requires ValidObstacleX(newX) && ValidObstacleSpeed(newSpeed)
      modifies this
      ensures Holds(Rules.Step(old(State()), now, newX, newSpeed))
    {
      MovePlayer();
      MoveObstacle();
      UpdateImmortality(now);
      Collide(now);
      Respawn(newX, newSpeed);
    }

    // Resolve the horizontal speed from the held keys, move and clamp.
    method MovePlayer()
      modifies this
      ensures Holds(Rules.MovePlayer(old(State())))
    {
      if movingLeft && !movingRight {
        playerSpeedX := -PLAYER_SPEED;
      } else if movingRight && !movingLeft {
        playerSpeedX := PLAYER_SPEED;
      } else {
        playerSpeedX := 0.0;
      }
      playerX := playerX + playerSpeedX;
      playerX := Clamp(playerX);
    }

    method MoveObstacle()
      modifies this
      ensures Holds(Rules.MoveObstacle(old(State())))
    {
      obstacleY := obstacleY + obstacleSpeed;
    }

    // End immortality after its duration and flicker while it lasts.
    method UpdateImmortality(now: real)
      modifies this
      ensures Holds(Rules.UpdateImmortality(old(State()), now))
    {
      if playerImmortality {
        if now - playerImmortalityStartTime >= IMMORTALITY_DURATION {
          playerImmortality := false;
        }
        if now - lastFlashTime >= FLASH_INTERVAL {
          lastFlashTime := now;
          playerVisible := !playerVisible;
        }
      }
    }

    // The collision check: a hit costs a life and starts immortality.
    method Collide(now: real)
      requires gameState == Playing
      modifies this
      ensures Holds(Rules.Collide(old(State()), now))
    {
      if Overlaps(playerX, playerY, obstacleX as real, obstacleY) && !playerImmortality {
        playerLives := playerLives - 1;
        playerImmortality := true;
        playerImmortalityStartTime := now;
        if playerLives == 0 {
          gameState := GameOver;
        }
      }
    }

    // An obstacle below the screen scores and respawns at the top.
    method Respawn(newX: int, newSpeed: real)
      requires ValidObstacleX(newX) && ValidObstacleSpeed(newSpeed)
      modifies this
      ensures Holds(Rules.Respawn(old(State()), newX, newSpeed))
    {
      if obstacleY > HEIGHT_R {
        score := score + 1;
        obstacleX := newX;
        obstacleY := 0.0;
        obstacleSpeed := newSpeed;
      }
    }

    // The phase-dependent part of a frame: the world moves only in PLAYING;
    // the START and GAME_OVER screens only draw.
    method OnFrame(now: real, newX: int, newSpeed: real)
      requires ValidObstacleX(newX) && ValidObstacleSpeed(newSpeed)
      modifies this
      ensures Holds(Frame(old(State()), now, newX, newSpeed))
    {
      if gameState == Playing {
        Step(now, newX, newSpeed);
      }
    }

    // `while running:` fed one input at a time.
    method Run(inputs: seq<Input>)
      requires ValidInputs(inputs)
      modifies this
      ensures Holds(Rules.Run(old(State()), inputs))
      ensures Inv(old(State())) ==> Inv(State())
    {
      var i := 0;
      while i < |inputs| && running
        invariant 0 <= i <= |inputs|
        invariant Rules.Run(State(), inputs[i..]) == Rules.Run(old(State()), inputs)
        decreases |inputs| - i
      {
        assert inputs[i..][1..] == inputs[i + 1..];
        match inputs[i] {
          case Press(key, x) => OnKeyDown(key, x);
          case Release(key) => OnKeyUp(key);
          case Close => OnQuit();
          case Tick(now, x, v) => OnFrame(now, x, v);
        }
        i := i + 1;
      }
      if Inv(old(State())) {
        Properties.RunPreservesInv(old(State()), inputs);
      }
    }
  }
}
