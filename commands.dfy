/**
 * The game's two-state machine, Playing and GameOver, driven by frames
 * and the jump command (a key press or a click), and the component that
 * holds the current state and replaces it on each event.
 */
module Commands {
  import opened GameModel
  import opened FrameStep
  import opened FrameProperties

  datatype Phase = Playing | GameOver

  function PhaseOf(s: GameState): Phase {
    if s.gameOver then GameOver else Playing
  }

  /**
   * The jump command: while playing, the bird gets the jump velocity;
   * after the game is over it starts a new game with the old high score.
   */
  function Jump(s: GameState, face: FaceRolls): (r: GameState)
    requires FaceRollsInRange(face)
    ensures !r.gameOver && r.highScore == s.highScore
    ensures r.birdVelocity <= 0.0
    ensures s.gameOver ==> r.score == 0 && r.pipes == InitialPipes() && |r.faces| == 1
    ensures !s.gameOver ==> r.score == s.score && r.pipes == s.pipes && r.faces == s.faces
  {
    if s.gameOver then InitialState(s.highScore, face)
    else s.(birdVelocity := JUMP_FORCE)
  }

  /** While playing, a jump changes the velocity to JUMP_FORCE and nothing else. */
  lemma JumpWhilePlaying(s: GameState, face: FaceRolls)
    requires FaceRollsInRange(face) && !s.gameOver
    ensures Jump(s, face).birdVelocity == -10.0
    ensures Jump(s, face) == s.(birdVelocity := -10.0)
  {
  }

  /**
   * After the game is over, a jump gives the fixed starting configuration
   * with one fresh face and keeps the high score.
   */
  lemma JumpAfterGameOver(s: GameState, face: FaceRolls)
    requires FaceRollsInRange(face) && s.gameOver
    ensures var r := Jump(s, face);
      r.birdPosition == 250.0 && r.birdVelocity == 0.0
      && r.pipes == [Pipe(400.0, 200), Pipe(700.0, 250), Pipe(1000.0, 150)]
      && |r.faces| == 1 && r.faces[0] == GetRandomFace(face) && !r.faces[0].isSlapped
      && r.score == 0 && r.highScore == s.highScore
      && r.speed == 5.0 && r.currentGapSize == 150
      && !r.isSlapping && !r.gameOver
  {
  }

  /** A jump keeps a valid state valid. */
  lemma JumpPreservesValid(s: GameState, face: FaceRolls)
    requires FaceRollsInRange(face) && Valid(s)
    ensures Valid(Jump(s, face))
  {
  }

  // ---------------------------------------------------------------------
  // Commands and runs
  // ---------------------------------------------------------------------

  /** What the shell feeds the engine: a frame, or a jump. */
  datatype Command = Frame(rolls: Rolls) | JumpCommand(face: FaceRolls)

  predicate CommandOk(c: Command) {
    match c
    case Frame(rolls) => RollsInRange(rolls)
    case JumpCommand(face) => FaceRollsInRange(face)
  }

  predicate CommandsOk(cmds: seq<Command>) {
    forall i :: 0 <= i < |cmds| ==> CommandOk(cmds[i])
  }

  function Apply(s: GameState, c: Command): (r: GameState)
    requires Valid(s) && CommandOk(c)
    ensures Valid(r)
  {
    match c
    case Frame(rolls) => TickPreservesValid(s, rolls); Tick(s, rolls)
    case JumpCommand(face) => JumpPreservesValid(s, face); Jump(s, face)
  }

  /**
   * The transitions of the state machine: a jump always leads to Playing;
   * a frame leaves GameOver unchanged and leaves Playing for GameOver
   * exactly when the bird crashes.
   */
  lemma Transitions(s: GameState, c: Command)
    requires Valid(s) && CommandOk(c)
    ensures c.JumpCommand? ==> PhaseOf(Apply(s, c)) == Playing
    ensures c.Frame? && PhaseOf(s) == GameOver ==> Apply(s, c) == s
    ensures c.Frame? && PhaseOf(s) == Playing ==>
      (PhaseOf(Apply(s, c)) == GameOver <==> Crashes(s, c.rolls))
  {
  }

  /**
   * The score goes down only when a jump restarts a finished game, and
   * then to 0; the high score never goes down.
   */
  lemma ScoreDropsOnlyOnReset(s: GameState, c: Command)
    requires Valid(s) && CommandOk(c)
    ensures Apply(s, c).highScore >= s.highScore
    ensures Apply(s, c).score < s.score ==> c.JumpCommand? && s.gameOver && Apply(s, c).score == 0
  {
  }

  function Run(s: GameState, cmds: seq<Command>): (r: GameState)
    requires Valid(s) && CommandsOk(cmds)
    ensures Valid(r)
    decreases |cmds|
  {
    if cmds == [] then s else Run(Apply(s, cmds[0]), cmds[1..])
  }

  /** The final scores of the games that the commands finish, in order. */
  function FinishedScores(s: GameState, cmds: seq<Command>): seq<nat>
    requires Valid(s) && CommandsOk(cmds)
    decreases |cmds|
  {
    if cmds == [] then []
    else
      var next := Apply(s, cmds[0]);
      (if !s.gameOver && next.gameOver then [s.score] else []) + FinishedScores(next, cmds[1..])
  }

  function MaxOf(m: nat, xs: seq<nat>): nat
    decreases |xs|
  {
    if xs == [] then m
    else MaxOf(if xs[0] > m then xs[0] else m, xs[1..])
  }

  lemma {:induction false} MaxOfAppend(m: nat, xs: seq<nat>, ys: seq<nat>)
    ensures MaxOf(m, xs + ys) == MaxOf(MaxOf(m, xs), ys)
    decreases |xs|
  {
    if xs == [] {
      assert xs + ys == ys;
    } else {
      assert (xs + ys)[1..] == xs[1..] + ys;
      MaxOfAppend(if xs[0] > m then xs[0] else m, xs[1..], ys);
    }
  }

  /**
   * After any sequence of frames and jumps the high score is the largest
   * of the starting high score and the final scores of the games played.
   */
  lemma {:induction false} HighScoreIsBestFinish(s: GameState, cmds: seq<Command>)
    requires Valid(s) && CommandsOk(cmds)
    ensures Run(s, cmds).highScore == MaxOf(s.highScore, FinishedScores(s, cmds))
    decreases |cmds|
  {
    if cmds != [] {
      var next := Apply(s, cmds[0]);
      var head: seq<nat> := if !s.gameOver && next.gameOver then [s.score] else [];
      assert CommandsOk(cmds[1..]) by {
        assert forall i :: 0 <= i < |cmds| - 1 ==> cmds[1..][i] == cmds[i + 1];
      }
      HighScoreIsBestFinish(next, cmds[1..]);
      MaxOfAppend(s.highScore, head, FinishedScores(next, cmds[1..]));
      assert next.highScore == MaxOf(s.highScore, head);
    }
  }

  /** Once the game is over, frames change nothing until a jump. */
  lemma {:induction false} FramesAfterGameOver(s: GameState, cmds: seq<Command>)
    requires Valid(s) && CommandsOk(cmds) && s.gameOver
    requires forall i :: 0 <= i < |cmds| ==> cmds[i].Frame?
    ensures Run(s, cmds) == s
    decreases |cmds|
  {
    if cmds != [] {
      assert CommandsOk(cmds[1..]) by {
        assert forall i :: 0 <= i < |cmds| - 1 ==> cmds[1..][i] == cmds[i + 1];
      }
      assert forall i :: 0 <= i < |cmds| - 1 ==> cmds[1..][i].Frame? by {
        assert forall i :: 0 <= i < |cmds| - 1 ==> cmds[1..][i] == cmds[i + 1];
      }
      FramesAfterGameOver(Apply(s, cmds[0]), cmds[1..]);
    }
  }

  // ---------------------------------------------------------------------
  // The component
  // ---------------------------------------------------------------------

  /**
   * The component's state cell. Each event replaces the whole state: a
   * frame through the frame step, a key press or a click through the
   * jump handler (the two handlers are the same code).
   */
  class GameComponent {
    var gameState: GameState

    /** The first render: a new game with one random face and no high score yet. */
    constructor (face: FaceRolls)
      requires FaceRollsInRange(face)
      ensures gameState == InitialState(0, face) && Valid(gameState)
    {
      gameState := InitialState(0, face);
    }

    /** One animation frame; nothing happens once the game is over. */
    method UpdateGame(rolls: Rolls)
      requires RollsInRange(rolls) && Valid(gameState)
      modifies this
      ensures gameState == Tick(old(gameState), rolls) && Valid(gameState)
      ensures old(gameState).gameOver ==> gameState == old(gameState)
    {
      if gameState.gameOver {
        return;
      }
      TickPreservesValid(gameState, rolls);
      gameState := Step(gameState, rolls);
    }

    /** A jump key or a click: restart after game over, otherwise jump. */
    method HandleJump(face: FaceRolls)
      requires FaceRollsInRange(face) && Valid(gameState)
      modifies this
      ensures gameState == Jump(old(gameState), face) && Valid(gameState)
    {
      if gameState.gameOver {
        gameState := InitialState(gameState.highScore, face);
      } else {
        gameState := gameState.(birdVelocity := JUMP_FORCE);
      }
    }
  }
}
