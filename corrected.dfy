// The restart the game evidently intends: SPACE on the GAME_OVER screen also
// gives back the starting lives. Everything else is the game as written, so
// GAME_OVER again comes exactly when the last life is lost.
module Corrected {
  import opened Rules

  // A restart that also resets the lives.
  function RestartWithLives(s: Session, newX: int): (r: Session)
    requires ValidObstacleX(newX)
    ensures r.lives == STARTING_LIVES && r.phase == Playing
    ensures r.(lives := s.lives) == Restart(s, newX)
  {
    Restart(s, newX).(lives := STARTING_LIVES)
  }

  // A key press, with the corrected restart on the GAME_OVER screen.
  function KeyDownWithLives(s: Session, key: Key, restartX: int): (r: Session)
    requires ValidObstacleX(restartX)
    ensures s.phase == GameOver && key == Space ==> r == RestartWithLives(s, restartX)
    ensures !(s.phase == GameOver && key == Space) ==> r == KeyDown(s, key, restartX)
  {
    if s.phase == GameOver && key == Space then RestartWithLives(s, restartX)
    else KeyDown(s, key, restartX)
  }

  function ApplyWithLives(s: Session, i: Input): (r: Session)
    requires ValidInput(i)
    ensures !(i.Press? && i.key == Space && s.phase == GameOver) ==> r == Apply(s, i)
  {
    match i
    case Press(key, x) => KeyDownWithLives(s, key, x)
    case _ => Apply(s, i)
  }

  // `while running:` with the corrected restart.
  function RunWithLives(s: Session, inputs: seq<Input>): (r: Session)
    requires ValidInputs(inputs)
    ensures !s.running ==> r == s
    decreases |inputs|
  {
    if inputs == [] || !s.running then s
    else RunWithLives(ApplyWithLives(s, inputs[0]), inputs[1..])
  }

  // The lives stay in [0, STARTING_LIVES], and the game is over exactly when
  // none are left.
  predicate LivesInv(s: Session)
  {
    Inv(s) && 0 <= s.lives && (s.phase == GameOver <==> s.lives == 0)
  }

  lemma InitialLivesInv(obstacleX: int)
    requires ValidObstacleX(obstacleX)
    ensures LivesInv(Initial(obstacleX))
  {
  }

  // One input keeps the lives invariant; a restart hands out all the lives.
  lemma ApplyWithLivesKeepsLives(s: Session, i: Input)
    requires LivesInv(s) && ValidInput(i)
    ensures LivesInv(ApplyWithLives(s, i))
    ensures i.Press? && i.key == Space && s.phase == GameOver ==>
              ApplyWithLives(s, i).lives == STARTING_LIVES
  {
  }

  // With the corrected restart, every reachable session keeps its lives in
  // [0, STARTING_LIVES] and shows GAME_OVER exactly when none are left, so a
  // restarted game can be lost again.
  lemma {:induction false} RunWithLivesKeepsLives(s: Session, inputs: seq<Input>)
    requires LivesInv(s) && ValidInputs(inputs)
    ensures LivesInv(RunWithLives(s, inputs))
    decreases |inputs|
  {
    if inputs != [] && s.running {
      ApplyWithLivesKeepsLives(s, inputs[0]);
      RunWithLivesKeepsLives(ApplyWithLives(s, inputs[0]), inputs[1..]);
    }
  }
}
