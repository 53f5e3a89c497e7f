/**
 * The state of one Slappy Bird session, the game's constants, the
 * difficulty curve and the two random generators.
 *
 * Every call of the browser's uniform random source is an explicit
 * parameter here: a real number `u` with 0 <= u < 1.  The generators
 * scale and floor it exactly as the game does, so the ranges they promise
 * are proved from that one assumption about the source of randomness.
 */
module GameModel {

  // ---------------------------------------------------------------------
  // Constants of the game
  // ---------------------------------------------------------------------

  const GRAVITY: real := 0.8
  const JUMP_FORCE: real := -10.0
  const INITIAL_PIPE_SPEED: real := 5.0
  const INITIAL_PIPE_GAP: int := 150
  /** Smallest gap, reached at the highest difficulty. */
  const MIN_PIPE_GAP: int := 100
  const BIRD_SIZE: int := 30
  const PIPE_WIDTH: int := 60
  const GAME_HEIGHT: int := 500
  const PIPE_SPACING: int := 300
  /** Largest scroll speed. */
  const MAX_SPEED: real := 8.0
  /** The difficulty level goes up once every this many points. */
  const DIFFICULTY_INCREASE_INTERVAL: nat := 5
  const FACE_SIZE: int := 40
  /** Size of the emoji palette; a face's emoji is an index into it. */
  const EMOJI_COUNT: nat := 7
  /** The bird's fixed horizontal position (left edge of its box). */
  const BIRD_X: int := 50
  /** Horizontal position at which new faces appear. */
  const FACE_SPAWN_X: real := 1000.0
  /** Per-tick probability of spawning a face when some are on screen. */
  const FACE_SPAWN_CHANCE: real := 0.01

  // ---------------------------------------------------------------------
  // Entities
  // ---------------------------------------------------------------------

  /** A pipe pair: its left edge and the top of its gap. */
  datatype Pipe = Pipe(x: real, gapStart: int)

  /** A face to slap; `emoji` indexes the palette of EMOJI_COUNT symbols. */
  datatype Face = Face(x: real, y: real, emoji: nat, isSlapped: bool)

  /** The whole session state the component keeps and replaces each frame. */
  datatype GameState = GameState(
    birdPosition: real,
    birdVelocity: real,
    pipes: seq<Pipe>,
    faces: seq<Face>,
    score: nat,
    highScore: nat,
    gameOver: bool,
    speed: real,
    currentGapSize: int,
    isSlapping: bool)

  /** Scroll speed and pipe gap for one difficulty level. */
  datatype Difficulty = Difficulty(speed: real, gapSize: int)

  /** The two random values that choose a new face: its height and its emoji. */
  datatype FaceRolls = FaceRolls(y: real, emoji: real)

  /**
   * The random values one frame may consume: the spawn coin, the face
   * that may be spawned, and the gap start of a recycled pipe.
   */
  datatype Rolls = Rolls(spawn: real, face: FaceRolls, gap: real)

  /** A value the browser's uniform random source can return. */
  predicate IsUnit(u: real) {
    0.0 <= u < 1.0
  }

  predicate FaceRollsInRange(f: FaceRolls) {
    IsUnit(f.y) && IsUnit(f.emoji)
  }

  predicate RollsInRange(r: Rolls) {
    IsUnit(r.spawn) && FaceRollsInRange(r.face) && IsUnit(r.gap)
  }

  // ---------------------------------------------------------------------
  // Difficulty
  // ---------------------------------------------------------------------

  /** The difficulty level of a score: one level per five points. */
  function Level(score: nat): nat {
    score / DIFFICULTY_INCREASE_INTERVAL
  }

  /**
   * Speed grows by 0.5 per level up to MAX_SPEED; the gap shrinks by 5
   * per level down to MIN_PIPE_GAP.
   */
  function CalculateDifficulty(score: nat): (d: Difficulty)
    ensures INITIAL_PIPE_SPEED <= d.speed <= MAX_SPEED
    ensures MIN_PIPE_GAP <= d.gapSize <= INITIAL_PIPE_GAP
  {
    var level := Level(score);
    var speed := INITIAL_PIPE_SPEED + (level as real) * 0.5;
    var gapSize := INITIAL_PIPE_GAP - level * 5;
    Difficulty(if speed < MAX_SPEED then speed else MAX_SPEED,
               if gapSize > MIN_PIPE_GAP then gapSize else MIN_PIPE_GAP)
  }

  lemma LevelMonotone(s1: nat, s2: nat)
    requires s1 <= s2
    ensures Level(s1) <= Level(s2)
  {
  }

  /** Speed never decreases and the gap never widens as the score grows. */
  lemma DifficultyMonotone(s1: nat, s2: nat)
    requires s1 <= s2
    ensures CalculateDifficulty(s1).speed <= CalculateDifficulty(s2).speed
    ensures CalculateDifficulty(s1).gapSize >= CalculateDifficulty(s2).gapSize
  {
    LevelMonotone(s1, s2);
  }

  /** The two reference values of the difficulty curve. */
  lemma DifficultyExamples()
    ensures CalculateDifficulty(0) == Difficulty(5.0, 150)
    ensures CalculateDifficulty(12) == Difficulty(6.0, 140)
  {
  }

  /** Speed is at its cap exactly from score 30 on (level 6). */
  lemma SpeedCapThreshold(score: nat)
    ensures CalculateDifficulty(score).speed == MAX_SPEED <==> score >= 30
  {
    assert Level(score) >= 6 <==> score >= 30;
  }

  /** The gap is at its floor exactly from score 50 on (level 10). */
  lemma GapFloorThreshold(score: nat)
    ensures CalculateDifficulty(score).gapSize == MIN_PIPE_GAP <==> score >= 50
  {
    assert Level(score) >= 10 <==> score >= 50;
  }

  // ---------------------------------------------------------------------
  // Random generators
  // ---------------------------------------------------------------------

  lemma ScaleBelow(u: real, w: real)
    requires IsUnit(u) && w > 0.0
    ensures 0.0 <= u * w < w
  {
    assert (1.0 - u) * w > 0.0;
  }

  /**
   * Gap start of a recycled pipe: floor(u * (maxGap - 50) + 50) where
   * maxGap is GAME_HEIGHT - gapSize - 50.  While there is room for the
   * gap, the result is an integer in [50, maxGap).
   */
  function GetRandomGapStart(gapSize: int, u: real): (g: int)
    requires IsUnit(u)
    ensures gapSize < GAME_HEIGHT - 100 ==> 50 <= g < GAME_HEIGHT - gapSize - 50
  {
    var minGap := 50;
    var maxGap := GAME_HEIGHT - gapSize - 50;
    var w := (maxGap - minGap) as real;
    assert maxGap > minGap ==> u * w < w by {
      if maxGap > minGap { ScaleBelow(u, w); }
    }
    (u * w + minGap as real).Floor
  }

  /**
   * A fresh face at the right edge: its top in [50, GAME_HEIGHT -
   * FACE_SIZE - 50), an emoji index of the palette, not yet slapped.
   */
  function GetRandomFace(r: FaceRolls): (f: Face)
    requires FaceRollsInRange(r)
    ensures f.x == FACE_SPAWN_X && !f.isSlapped
    ensures 50.0 <= f.y < (GAME_HEIGHT - FACE_SIZE - 50) as real
    ensures f.emoji < EMOJI_COUNT
  {
    ScaleBelow(r.emoji, EMOJI_COUNT as real);
    var index := (r.emoji * (EMOJI_COUNT as real)).Floor;
    Face(FACE_SPAWN_X, r.y * ((GAME_HEIGHT - FACE_SIZE - 100) as real) + 50.0, index as nat, false)
  }

  // ---------------------------------------------------------------------
  // Initial configuration and the session invariant
  // ---------------------------------------------------------------------

  /** The fixed pipes of a new game. */
  function InitialPipes(): seq<Pipe> {
    [Pipe(400.0, 200), Pipe(700.0, 250), Pipe(1000.0, 150)]
  }

  /** A new game with one random face, keeping the given high score. */
  function InitialState(highScore: nat, face: FaceRolls): (s: GameState)
    requires FaceRollsInRange(face)
    ensures !s.gameOver && s.score == 0 && s.highScore == highScore
    ensures s.birdPosition == 250.0 && s.birdVelocity == 0.0 && !s.isSlapping
    ensures |s.pipes| == 3 && Spaced(s.pipes) && GapsInRange(s.pipes)
    ensures |s.faces| == 1 && s.faces[0].x == FACE_SPAWN_X && !s.faces[0].isSlapped
    ensures s.speed == CalculateDifficulty(0).speed && s.currentGapSize == CalculateDifficulty(0).gapSize
  {
    GameState(250.0, 0.0, InitialPipes(), [GetRandomFace(face)], 0, highScore,
              false, INITIAL_PIPE_SPEED, INITIAL_PIPE_GAP, false)
  }

  /** Pipes ordered left to right, exactly PIPE_SPACING apart. */
  predicate Spaced(ps: seq<Pipe>) {
    forall k :: 0 <= k < |ps| - 1 ==> ps[k + 1].x == ps[k].x + PIPE_SPACING as real
  }

  /** Every gap starts in [50, 350), the range any gap size allows. */
  predicate GapsInRange(ps: seq<Pipe>) {
    forall k :: 0 <= k < |ps| ==> 50 <= ps[k].gapStart < GAME_HEIGHT - MIN_PIPE_GAP - 50
  }

  /**
   * What every state reachable from a new game satisfies: three evenly
   * spaced pipes with gaps in range, the head pipe not yet wholly off
   * screen, at least one face, speed and gap within their clamps, and a
   * finished game's score already counted in its high score.
   */
  predicate Valid(s: GameState) {
    |s.pipes| == 3 && Spaced(s.pipes) && GapsInRange(s.pipes)
    && s.pipes[0].x >= -(PIPE_WIDTH as real)
    && |s.faces| > 0
    && INITIAL_PIPE_SPEED <= s.speed <= MAX_SPEED
    && MIN_PIPE_GAP <= s.currentGapSize <= INITIAL_PIPE_GAP
    && (s.gameOver ==> s.score <= s.highScore)
  }

  /** A new game is a valid, running, scoreless state. */
  lemma InitialStateValid(highScore: nat, face: FaceRolls)
    requires FaceRollsInRange(face)
    ensures Valid(InitialState(highScore, face))
    ensures !InitialState(highScore, face).gameOver && InitialState(highScore, face).score == 0
  {
  }
}
