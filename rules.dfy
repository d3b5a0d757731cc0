// The rules of one Sidestep game session: the constants, the session state
// as a value, and the pure transitions that the game loop performs on it
// (key events, the per-frame PLAYING step, the START and GAME_OVER screens).
module Rules {

  // Screen and entity geometry, in pixels.
  const WIDTH: int := 400
  const HEIGHT: int := 600
  const PLAYER_SIZE: int := 25
  const OBSTACLE_SIZE: int := 50

  // Speeds, in pixels per frame.
  const PLAYER_SPEED: real := 0.7
  const OBSTACLE_SPEED_MIN: real := 0.6
  const OBSTACLE_SPEED_MAX: real := 1.5

  // Timers, in seconds.
  const IMMORTALITY_DURATION: real := 3.0
  const FLASH_INTERVAL: real := 0.2

  const STARTING_LIVES: int := 3

  // The same lengths as reals, for comparisons with positions.
  const HEIGHT_R: real := HEIGHT as real
  const PLAYER_SIZE_R: real := PLAYER_SIZE as real
  const OBSTACLE_SIZE_R: real := OBSTACLE_SIZE as real

  // Largest left edge that keeps each square fully on screen.
  const MAX_PLAYER_X: real := (WIDTH - PLAYER_SIZE) as real
  const MAX_OBSTACLE_X: int := WIDTH - OBSTACLE_SIZE

  // Player placement when the process starts and after a restart; Python's
  // `//` agrees with Dafny's `/` on these non-negative operands.
  const START_PLAYER_X: real := (WIDTH / 2 - PLAYER_SIZE / 2) as real
  const START_PLAYER_Y: real := (HEIGHT - PLAYER_SIZE - 20) as real
  const RESTART_PLAYER_Y: real := (HEIGHT - PLAYER_SIZE) as real

  datatype Phase = Start | Playing | GameOver

  // The keys the game reacts to; every other key is `Other`.
  datatype Key = Left | Right | KeyA | KeyD | Space | Escape | Other

  predicate IsLeftKey(k: Key) { k == Left || k == KeyA }
  predicate IsRightKey(k: Key) { k == Right || k == KeyD }

  // Every module-level variable the game loop reads or writes.
  datatype Session = Session(
    playerX: real,
    playerY: real,
    playerSpeedX: real,
    lives: int,
    immortal: bool,
    immortalStart: real,
    lastFlash: real,
    visible: bool,
    obstacleX: int,
    obstacleY: real,
    obstacleSpeed: real,
    score: nat,
    phase: Phase,
    movingLeft: bool,
    movingRight: bool,
    running: bool)

  // The values `random.randint(0, WIDTH - OBSTACLE_SIZE)` can return.
  predicate ValidObstacleX(x: int) { 0 <= x <= MAX_OBSTACLE_X }

  // The values `random.uniform(OBSTACLE_SPEED_MIN, OBSTACLE_SPEED_MAX)` can return.
  predicate ValidObstacleSpeed(v: real) { OBSTACLE_SPEED_MIN <= v <= OBSTACLE_SPEED_MAX }

  // What holds of every session the game can reach.
  predicate Inv(s: Session) {
    && 0.0 <= s.playerX <= MAX_PLAYER_X
    && (s.playerY == START_PLAYER_Y || s.playerY == RESTART_PLAYER_Y)
    && ValidObstacleX(s.obstacleX)
    && 0.0 <= s.obstacleY <= HEIGHT_R
    && ValidObstacleSpeed(s.obstacleSpeed)
    && s.lives <= STARTING_LIVES
    && (s.phase == GameOver ==> s.lives == 0)
  }

  // The session as the process creates it, before the first frame.
  function Initial(obstacleX: int): (s: Session)
    requires ValidObstacleX(obstacleX)
    ensures Inv(s)
    ensures s.phase == Start && s.running && s.score == 0 && s.lives == STARTING_LIVES
    ensures !s.immortal && s.visible && !s.movingLeft && !s.movingRight
    ensures s.obstacleY == 0.0 && s.obstacleSpeed == OBSTACLE_SPEED_MIN && s.obstacleX == obstacleX
    ensures s.playerX == 188.0 && s.playerY == 555.0 && s.playerSpeedX == 0.0
    ensures s.immortalStart == 0.0 && s.lastFlash == 0.0
  {
    Session(
      playerX := START_PLAYER_X, playerY := START_PLAYER_Y, playerSpeedX := 0.0,
      lives := STARTING_LIVES,
      immortal := false, immortalStart := 0.0, lastFlash := 0.0, visible := true,
      obstacleX := obstacleX, obstacleY := 0.0, obstacleSpeed := OBSTACLE_SPEED_MIN,
      score := 0, phase := Start,
      movingLeft := false, movingRight := false, running := true)
  }

  // ---------------------------------------------------------------------
  // The PLAYING step, block by block in the order the game loop runs them.
  // ---------------------------------------------------------------------

  // Horizontal speed from the held movement keys: holding both is neutral.
  function Velocity(left: bool, right: bool): (v: real)
    ensures v == -PLAYER_SPEED <==> left && !right
    ensures v == PLAYER_SPEED <==> right && !left
    ensures v == 0.0 <==> left == right
  {
    if left && !right then -PLAYER_SPEED
    else if right && !left then PLAYER_SPEED
    else 0.0
  }

  // `max(0, min(x, WIDTH - PLAYER_SIZE))`.
  function Clamp(x: real): (r: real)
    ensures 0.0 <= r <= MAX_PLAYER_X
    ensures 0.0 <= x <= MAX_PLAYER_X ==> r == x
    ensures x < 0.0 ==> r == 0.0
    ensures x > MAX_PLAYER_X ==> r == MAX_PLAYER_X
  {
    var m := if x < MAX_PLAYER_X then x else MAX_PLAYER_X;
    if 0.0 < m then m else 0.0
  }

  // Resolve the speed from the held keys, move the player and clamp it.
  function MovePlayer(s: Session): (r: Session)
    ensures r == s.(playerX := r.playerX, playerSpeedX := r.playerSpeedX)
    ensures r.playerSpeedX == Velocity(s.movingLeft, s.movingRight)
    ensures 0.0 <= r.playerX <= MAX_PLAYER_X
    ensures 0.0 <= s.playerX <= MAX_PLAYER_X ==>
              r.playerX - PLAYER_SPEED <= s.playerX <= r.playerX + PLAYER_SPEED
    ensures 0.0 <= s.playerX + r.playerSpeedX <= MAX_PLAYER_X ==>
              r.playerX == s.playerX + r.playerSpeedX
    ensures s.playerX + r.playerSpeedX < 0.0 ==> r.playerX == 0.0
    ensures s.playerX + r.playerSpeedX > MAX_PLAYER_X ==> r.playerX == MAX_PLAYER_X
  {
    var vx := Velocity(s.movingLeft, s.movingRight);
    s.(playerSpeedX := vx, playerX := Clamp(s.playerX + vx))
  }

  // The obstacle falls by its own speed.
  function MoveObstacle(s: Session): (r: Session)
    ensures r == s.(obstacleY := r.obstacleY)
    ensures r.obstacleY - s.obstacleY == s.obstacleSpeed
  {
    s.(obstacleY := s.obstacleY + s.obstacleSpeed)
  }

  // The immortality timer and the flicker while immortal.
  function UpdateImmortality(s: Session, now: real): (r: Session)
    ensures r == s.(immortal := r.immortal, lastFlash := r.lastFlash, visible := r.visible)
    ensures r.immortal <==> s.immortal && now - s.immortalStart < IMMORTALITY_DURATION
    ensures r.visible != s.visible <==> s.immortal && now - s.lastFlash >= FLASH_INTERVAL
    ensures r.lastFlash != s.lastFlash ==> r.lastFlash == now && r.visible != s.visible
    ensures r.visible != s.visible ==> r.lastFlash == now
  {
    if !s.immortal then s
    else
      var expired := now - s.immortalStart >= IMMORTALITY_DURATION;
      var flash := now - s.lastFlash >= FLASH_INTERVAL;
      s.(immortal := !expired,
         lastFlash := if flash then now else s.lastFlash,
         visible := if flash then !s.visible else s.visible)
  }

  // Axis-aligned overlap of the player square at (px, py) and the obstacle
  // square at (ox, oy); every comparison is strict. Equivalently, the
  // player's corner lies strictly inside the obstacle square grown up and
  // to the left by the player's size.
  predicate Overlaps(px: real, py: real, ox: real, oy: real)
    ensures Overlaps(px, py, ox, oy) <==>
              ox - PLAYER_SIZE_R < px < ox + OBSTACLE_SIZE_R &&
              oy - PLAYER_SIZE_R < py < oy + OBSTACLE_SIZE_R
  {
    && px < ox + OBSTACLE_SIZE_R
    && px + PLAYER_SIZE_R > ox
    && py < oy + OBSTACLE_SIZE_R
    && py + PLAYER_SIZE_R > oy
  }

  // Whether the collision check of this frame registers a hit.
  predicate Hits(s: Session)
    ensures s.immortal ==> !Hits(s)
    ensures !s.immortal ==> (Hits(s) <==> Overlaps(s.playerX, s.playerY, s.obstacleX as real, s.obstacleY))
  {
    !s.immortal && Overlaps(s.playerX, s.playerY, s.obstacleX as real, s.obstacleY)
  }

  // A hit costs one life, starts immortality and may end the game.
  function Collide(s: Session, now: real): (r: Session)
    requires s.phase == Playing
    ensures !Hits(s) ==> r == s
    ensures Hits(s) ==> r == s.(lives := r.lives, immortal := r.immortal,
                                immortalStart := r.immortalStart, phase := r.phase)
    ensures Hits(s) ==> r.lives == s.lives - 1 && r.immortal && r.immortalStart == now
    ensures r.phase == GameOver <==> Hits(s) && r.lives == 0
    ensures r.phase != Start
  {
    if Hits(s) then
      var lives := s.lives - 1;
      s.(lives := lives, immortal := true, immortalStart := now,
         phase := if lives == 0 then GameOver else s.phase)
    else s
  }

  // An obstacle below the bottom edge scores a point and respawns at the top.
  function Respawn(s: Session, newX: int, newSpeed: real): (r: Session)
    requires ValidObstacleX(newX) && ValidObstacleSpeed(newSpeed)
    ensures s.obstacleY <= HEIGHT_R ==> r == s
    ensures s.obstacleY > HEIGHT_R ==>
              r == s.(score := s.score + 1, obstacleX := newX, obstacleY := 0.0,
                       obstacleSpeed := newSpeed)
    ensures r.score == s.score || r.score == s.score + 1
    ensures r.obstacleY <= HEIGHT_R
  {
    if s.obstacleY > HEIGHT_R then
      s.(score := s.score + 1, obstacleX := newX, obstacleY := 0.0, obstacleSpeed := newSpeed)
    else s
  }

  // One frame in the PLAYING phase; `now` is the frame's clock reading and
  // (`newX`, `newSpeed`) the random draws used if the obstacle respawns.
  function Step(s: Session, now: real, newX: int, newSpeed: real): (r: Session)
    requires s.phase == Playing
    requires ValidObstacleX(newX) && ValidObstacleSpeed(newSpeed)
    ensures 0.0 <= r.playerX <= MAX_PLAYER_X
    ensures r.lives == s.lives || r.lives == s.lives - 1
    ensures r.phase == GameOver <==> r.lives == s.lives - 1 && r.lives == 0
  {
    var moved := MoveObstacle(MovePlayer(s));
    assert moved.obstacleY == s.obstacleY + s.obstacleSpeed;
    var timed := UpdateImmortality(moved, now);
    assert timed.obstacleY == moved.obstacleY && timed.phase == Playing;
    var hit := Collide(timed, now);
    assert hit.obstacleY == moved.obstacleY && hit.obstacleX == s.obstacleX;
    assert hit.score == s.score && hit.obstacleSpeed == s.obstacleSpeed;
    assert hit.playerY == s.playerY && 0.0 <= hit.playerX <= MAX_PLAYER_X;
    Respawn(hit, newX, newSpeed)
  }

  // Whether the frame draws the player: always when mortal, and while
  // immortal only in the visible half of the flicker.
  predicate Drawn(s: Session)
    ensures !s.immortal ==> Drawn(s)
    ensures s.immortal ==> (Drawn(s) <==> s.visible)
  {
    !s.immortal || s.visible
  }

  // ---------------------------------------------------------------------
  // Events.
  // ---------------------------------------------------------------------

  // SPACE on the GAME_OVER screen: back to the starting layout, score 0.
  // Lives, obstacle speed, the immortality fields and the held keys carry over.
  function Restart(s: Session, newX: int): (r: Session)
    requires ValidObstacleX(newX)
    ensures r.playerX == START_PLAYER_X && r.playerY == RESTART_PLAYER_Y && r.playerSpeedX == 0.0
    ensures r.obstacleX == newX && r.obstacleY == 0.0 && r.score == 0 && r.phase == Playing
  {
    s.(playerX := START_PLAYER_X, playerY := RESTART_PLAYER_Y, playerSpeedX := 0.0,
       obstacleX := newX, obstacleY := 0.0, score := 0, phase := Playing)
  }

  // A key press. ESC stops the game in every phase; in PLAYING the movement
  // keys are latched; SPACE starts from START and restarts from GAME_OVER.
  function KeyDown(s: Session, key: Key, restartX: int): (r: Session)
    requires ValidObstacleX(restartX)
    ensures r.running == (s.running && key != Escape)
    ensures r.lives == s.lives
    ensures s.phase == Playing ==> r.phase == Playing
  {
    var s1 := if key == Escape then s.(running := false) else s;
    match s.phase
    case Playing =>
      s1.(movingLeft := if IsLeftKey(key) then true else s1.movingLeft,
          movingRight := if IsRightKey(key) then true else s1.movingRight)
    case Start =>
      if key == Space then s1.(phase := Playing) else s1
    case GameOver =>
      if key == Space then Restart(s1, restartX) else s1
  }

  // A key release: in PLAYING it drops the matching movement key.
  function KeyUp(s: Session, key: Key): (r: Session)
    ensures r == s.(movingLeft := r.movingLeft, movingRight := r.movingRight)
    ensures s.phase == Playing ==>
              r.movingLeft == (s.movingLeft && !IsLeftKey(key)) &&
              r.movingRight == (s.movingRight && !IsRightKey(key))
    ensures s.phase != Playing ==> r == s
  {
    if s.phase == Playing then
      s.(movingLeft := if IsLeftKey(key) then false else s.movingLeft,
         movingRight := if IsRightKey(key) then false else s.movingRight)
    else s
  }

  // Closing the window stops the game in every phase.
  function Quit(s: Session): (r: Session)
    ensures !r.running
    ensures r == s.(running := r.running)
  {
    s.(running := false)
  }

  // The phase-dependent part of a frame: only PLAYING advances the world.
  function Frame(s: Session, now: real, newX: int, newSpeed: real): (r: Session)
    requires ValidObstacleX(newX) && ValidObstacleSpeed(newSpeed)
    ensures s.phase != Playing ==> r == s
    ensures r.lives <= s.lives && r.score >= s.score && r.running == s.running
    ensures Inv(s) ==> Inv(r)
  {
    if s.phase == Playing then Step(s, now, newX, newSpeed) else s
  }

  // ---------------------------------------------------------------------
  // The game loop, fed one input at a time.
  // ---------------------------------------------------------------------

  // One thing the loop reacts to: a key event, the window being closed, or
  // a frame with its clock reading and the random draws a respawn would use.
  datatype Input =
    | Press(key: Key, restartX: int)
    | Release(key: Key)
    | Close
    | Tick(now: real, newX: int, newSpeed: real)

  // The random draws an input carries lie in the ranges the source draws from.
  predicate ValidInput(i: Input)
  {
    match i
    case Press(_, x) => ValidObstacleX(x)
    case Tick(_, x, v) => ValidObstacleX(x) && ValidObstacleSpeed(v)
    case _ => true
  }

  predicate ValidInputs(inputs: seq<Input>)
  {
    forall k | 0 <= k < |inputs| :: ValidInput(inputs[k])
  }

  function Apply(s: Session, i: Input): (r: Session)
    requires ValidInput(i)
    ensures r.lives <= s.lives
    ensures Inv(s) ==> Inv(r)
  {
    match i
    case Press(key, x) => KeyDown(s, key, x)
    case Release(key) => KeyUp(s, key)
    case Close => Quit(s)
    case Tick(now, x, v) => Frame(s, now, x, v)
  }

  // `while running:` over a sequence of inputs; once `running` is false the
  // remaining inputs are never read.
  function Run(s: Session, inputs: seq<Input>): (r: Session)
    requires ValidInputs(inputs)
    ensures r.lives <= s.lives
    decreases |inputs|
  {
    if inputs == [] || !s.running then s
    else Run(Apply(s, inputs[0]), inputs[1..])
  }
}
