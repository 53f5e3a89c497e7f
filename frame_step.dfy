/**
 * One animation frame of the game: gravity, difficulty, scrolling and
 * recycling of pipes, the face lifecycle, pipe collision, face slaps,
 * the ground and ceiling, and scoring.
 *
 * `Tick` states what a frame produces; `Step` computes it the way the
 * game's reducer does, building new sequences element by element and
 * accumulating the score in loops, and is proved equal to `Tick`.
 */
module FrameStep {
  import opened GameModel

  // ---------------------------------------------------------------------
  // Geometry
  // ---------------------------------------------------------------------

  /** An axis-aligned box in screen coordinates (y grows downwards). */
  datatype Rect = Rect(top: real, bottom: real, left: real, right: real)

  /** The bird's box: BIRD_SIZE square, left edge at BIRD_X. */
  function BirdRect(pos: real): Rect {
    Rect(pos, pos + BIRD_SIZE as real, BIRD_X as real, (BIRD_X + BIRD_SIZE) as real)
  }

  /**
   * The reach of a slap: 5 beyond the bird's box above and below, from 10
   * inside its right edge to 20 ahead of it.
   */
  function SlapRect(pos: real): (r: Rect)
    ensures r.top == pos - 5.0 && r.bottom == pos + 35.0
    ensures r.left == 70.0 && r.right == 100.0
  {
    var bird := BirdRect(pos);
    Rect(bird.top - 5.0, bird.bottom + 5.0, bird.right - 10.0, bird.right + 20.0)
  }

  /**
   * The bird overlaps the pipe's columns horizontally and is not wholly
   * inside its gap.
   */
  predicate HitsPipe(pos: real, p: Pipe, gapSize: int) {
    var bird := BirdRect(pos);
    var upper := Rect(0.0, p.gapStart as real, p.x, p.x + PIPE_WIDTH as real);
    var lower := Rect((p.gapStart + gapSize) as real, GAME_HEIGHT as real, p.x, p.x + PIPE_WIDTH as real);
    bird.right > upper.left && bird.left < upper.right
    && (bird.top < upper.bottom || bird.bottom > lower.top)
  }

  predicate PipeCollision(ps: seq<Pipe>, pos: real, gapSize: int) {
    exists k :: 0 <= k < |ps| && HitsPipe(pos, ps[k], gapSize)
  }

  /** The bird has left the screen at the bottom or the top. */
  predicate GroundCollision(pos: real) {
    pos > (GAME_HEIGHT - BIRD_SIZE) as real || pos < 0.0
  }

  /** A face not yet slapped whose box overlaps the slap's reach. */
  predicate Slaps(pos: real, f: Face) {
    var reach := SlapRect(pos);
    !f.isSlapped
    && reach.right > f.x && reach.left < f.x + FACE_SIZE as real
    && reach.bottom > f.y && reach.top < f.y + FACE_SIZE as real
  }

  /**
   * In numbers: the bird hits a pipe whose left edge lies in (-10, 80),
   * so that their columns overlap, unless its box lies wholly in the gap.
   */
  lemma HitsPipeIff(pos: real, p: Pipe, gapSize: int)
    ensures HitsPipe(pos, p, gapSize) <==>
      (BIRD_X - PIPE_WIDTH) as real < p.x < (BIRD_X + BIRD_SIZE) as real
      && (pos < p.gapStart as real || pos + BIRD_SIZE as real > (p.gapStart + gapSize) as real)
  {
  }

  /** No pipe is hit exactly when the bird is inside the gap of every pipe it overlaps. */
  lemma PipeCollisionIff(ps: seq<Pipe>, pos: real, gapSize: int)
    ensures !PipeCollision(ps, pos, gapSize) <==>
      forall k :: 0 <= k < |ps| && (BIRD_X - PIPE_WIDTH) as real < ps[k].x < (BIRD_X + BIRD_SIZE) as real ==>
        ps[k].gapStart as real <= pos && pos + BIRD_SIZE as real <= (ps[k].gapStart + gapSize) as real
  {
  }

  /**
   * In numbers: an unslapped face is slapped when its left edge lies in
   * (30, 100) and its top within (pos - 45, pos + 35).
   */
  lemma SlapsIff(pos: real, f: Face)
    ensures Slaps(pos, f) <==>
      !f.isSlapped && 30.0 < f.x < 100.0 && pos - 45.0 < f.y < pos + 35.0
  {
  }

  // ---------------------------------------------------------------------
  // Pipes
  // ---------------------------------------------------------------------

  function MovePipe(p: Pipe, speed: real): Pipe {
    p.(x := p.x - speed)
  }

  function MovePipes(ps: seq<Pipe>, speed: real): seq<Pipe> {
    seq(|ps|, k requires 0 <= k < |ps| => MovePipe(ps[k], speed))
  }

  /** The head pipe has scrolled wholly past the left edge. */
  predicate NeedsRecycle(ps: seq<Pipe>)
    requires |ps| > 0
  {
    ps[0].x < -(PIPE_WIDTH as real)
  }

  /** Drop an off-screen head and append a pipe PIPE_SPACING after the tail. */
  function RecyclePipes(ps: seq<Pipe>, gapStart: int): (r: seq<Pipe>)
    requires |ps| > 0 && (NeedsRecycle(ps) ==> |ps| > 1)
    ensures |r| == |ps|
  {
    if NeedsRecycle(ps) then
      var rest := ps[1..];
      rest + [Pipe(rest[|rest| - 1].x + PIPE_SPACING as real, gapStart)]
    else ps
  }

  /** The pipe's left edge crossed the bird's line during this frame. */
  predicate Passed(p: Pipe, speed: real) {
    p.x + speed > BIRD_X as real && p.x <= BIRD_X as real
  }

  function CountPassed(ps: seq<Pipe>, speed: real): (n: nat)
    ensures n <= |ps|
    ensures n == 0 <==> forall k :: 0 <= k < |ps| ==> !Passed(ps[k], speed)
  {
    if ps == [] then 0
    else
      var init := ps[..|ps| - 1];
      assert forall k :: 0 <= k < |init| ==> init[k] == ps[k];
      CountPassed(init, speed) + (if Passed(ps[|ps| - 1], speed) then 1 else 0)
  }

  // ---------------------------------------------------------------------
  // Faces
  // ---------------------------------------------------------------------

  predicate OnScreen(f: Face) {
    f.x > -(FACE_SIZE as real)
  }

  /** The faces still on screen, in their order. */
  function KeepOnScreen(fs: seq<Face>): (r: seq<Face>)
    ensures |r| <= |fs|
    ensures forall k :: 0 <= k < |r| ==> OnScreen(r[k]) && r[k] in fs
    ensures forall k :: 0 <= k < |fs| && OnScreen(fs[k]) ==> fs[k] in r
  {
    if fs == [] then []
    else
      var init := fs[..|fs| - 1];
      var last := fs[|fs| - 1];
      assert fs == init + [last];
      var kept := KeepOnScreen(init);
      if OnScreen(last) then kept + [last] else kept
  }

  /** The filter keeps every on-screen face as often as it occurs, and no other face. */
  lemma {:induction false} KeepCounts(fs: seq<Face>)
    ensures forall f :: multiset(KeepOnScreen(fs))[f] == if OnScreen(f) then multiset(fs)[f] else 0
  {
    if fs != [] {
      var init := fs[..|fs| - 1];
      var last := fs[|fs| - 1];
      assert fs == init + [last];
      KeepCounts(init);
      assert multiset(fs) == multiset(init) + multiset{last};
    }
  }

  /** The filter keeps order: filtering a concatenation filters each part. */
  lemma {:induction false} KeepAppend(a: seq<Face>, b: seq<Face>)
    ensures KeepOnScreen(a + b) == KeepOnScreen(a) + KeepOnScreen(b)
    decreases |b|
  {
    if b == [] {
      assert a + b == a;
    } else {
      var init := b[..|b| - 1];
      var last := b[|b| - 1];
      assert b == init + [last];
      assert (a + b)[..|a + b| - 1] == a + init;
      assert (a + b)[|a + b| - 1] == last;
      KeepAppend(a, init);
    }
  }

  function MoveFace(f: Face, speed: real): Face {
    f.(x := f.x - speed)
  }

  function MoveFaces(fs: seq<Face>, speed: real): seq<Face> {
    seq(|fs|, k requires 0 <= k < |fs| => MoveFace(fs[k], speed))
  }

  /** Append a random face on a spawn roll below the chance, or when none is left. */
  function SpawnFace(fs: seq<Face>, rolls: Rolls): (r: seq<Face>)
    requires RollsInRange(rolls)
    ensures 0 < |r| && |fs| <= |r| <= |fs| + 1 && r[..|fs|] == fs
    ensures |r| == |fs| + 1 <==> rolls.spawn < FACE_SPAWN_CHANCE || |fs| == 0
    ensures |r| == |fs| + 1 ==> r[|fs|].x == FACE_SPAWN_X && !r[|fs|].isSlapped
  {
    if rolls.spawn < FACE_SPAWN_CHANCE || |fs| == 0 then fs + [GetRandomFace(rolls.face)] else fs
  }

  function SlapFace(pos: real, f: Face): Face {
    if Slaps(pos, f) then f.(isSlapped := true) else f
  }

  function SlapFaces(fs: seq<Face>, pos: real): seq<Face> {
    seq(|fs|, k requires 0 <= k < |fs| => SlapFace(pos, fs[k]))
  }

  /** The number of faces a slap at this position scores. */
  function CountSlaps(fs: seq<Face>, pos: real): (n: nat)
    ensures n <= |fs|
    ensures n == 0 <==> forall k :: 0 <= k < |fs| ==> !Slaps(pos, fs[k])
  {
    if fs == [] then 0
    else
      var init := fs[..|fs| - 1];
      assert forall k :: 0 <= k < |init| ==> init[k] == fs[k];
      CountSlaps(init, pos) + (if Slaps(pos, fs[|fs| - 1]) then 1 else 0)
  }

  /** Some face is within reach of a slap at this position. */
  predicate AnySlap(fs: seq<Face>, pos: real) {
    exists k :: 0 <= k < |fs| && Slaps(pos, fs[k])
  }

  /** The number of faces already marked as slapped. */
  function NumSlapped(fs: seq<Face>): nat {
    if fs == [] then 0
    else NumSlapped(fs[..|fs| - 1]) + (if fs[|fs| - 1].isSlapped then 1 else 0)
  }

  // ---------------------------------------------------------------------
  // The frame
  // ---------------------------------------------------------------------

  /**
   * The reducer reads the head pipe and, after recycling, the new tail:
   * with no pipe, or one pipe to recycle, it would fail.
   */
  predicate CanReduce(s: GameState) {
    |s.pipes| > 0
    && (s.pipes[0].x - CalculateDifficulty(s.score).speed < -(PIPE_WIDTH as real) ==> |s.pipes| > 1)
  }

  /** A finished game is never advanced, so only a running one needs pipes. */
  predicate CanAdvance(s: GameState) {
    s.gameOver || CanReduce(s)
  }

  function NewVelocity(s: GameState): real {
    s.birdVelocity + GRAVITY
  }

  function NewPosition(s: GameState): real {
    s.birdPosition + NewVelocity(s)
  }

  /** The pipes after scrolling and recycling. */
  function NextPipes(s: GameState, rolls: Rolls): (r: seq<Pipe>)
    requires RollsInRange(rolls) && CanAdvance(s) && !s.gameOver
    ensures |r| == |s.pipes|
  {
    var d := CalculateDifficulty(s.score);
    RecyclePipes(MovePipes(s.pipes, d.speed), GetRandomGapStart(d.gapSize, rolls.gap))
  }

  /** The faces after dropping, scrolling and spawning, before any slap. */
  function NextFaces(s: GameState, rolls: Rolls): seq<Face>
    requires RollsInRange(rolls)
  {
    SpawnFace(MoveFaces(KeepOnScreen(s.faces), CalculateDifficulty(s.score).speed), rolls)
  }

  /** With the bird moved and these pipes, a pipe is hit or the bird has left the screen. */
  predicate Collides(s: GameState, pipes: seq<Pipe>, gapSize: int) {
    PipeCollision(pipes, NewPosition(s), gapSize) || GroundCollision(NewPosition(s))
  }

  /** This frame ends the game. */
  predicate Crashes(s: GameState, rolls: Rolls)
    requires RollsInRange(rolls) && CanAdvance(s) && !s.gameOver
  {
    Collides(s, NextPipes(s, rolls), CalculateDifficulty(s.score).gapSize)
  }

  /** The state as it was, marked over, with its score counted in the high score. */
  function EndGame(s: GameState): (r: GameState)
    ensures r.gameOver
    ensures r.highScore >= s.score && r.highScore >= s.highScore
    ensures r.highScore == s.score || r.highScore == s.highScore
    ensures r.(gameOver := s.gameOver, highScore := s.highScore) == s
  {
    s.(gameOver := true, highScore := if s.score > s.highScore then s.score else s.highScore)
  }

  /**
   * A frame that does not end the game, given its difficulty and its
   * moved pipes and faces: the bird moves, reachable faces are slapped,
   * and the score grows by the slaps and the pipes passed.
   */
  function Commit(s: GameState, d: Difficulty, pipes: seq<Pipe>, faces: seq<Face>): GameState {
    var pos := NewPosition(s);
    s.(birdPosition := pos,
       birdVelocity := NewVelocity(s),
       pipes := pipes,
       faces := SlapFaces(faces, pos),
       score := s.score + CountSlaps(faces, pos) + CountPassed(pipes, d.speed),
       speed := d.speed,
       currentGapSize := d.gapSize,
       isSlapping := AnySlap(faces, pos) || s.isSlapping)
  }

  /**
   * A committed frame keeps the game running and the high score, takes the
   * given pipes and difficulty, never lowers the score or clears the fist,
   * and keeps every face where it is, with a slapped face still slapped.
   */
  lemma CommitKeeps(s: GameState, d: Difficulty, pipes: seq<Pipe>, faces: seq<Face>)
    ensures var r := Commit(s, d, pipes, faces);
      r.gameOver == s.gameOver && r.highScore == s.highScore
      && r.pipes == pipes && r.speed == d.speed && r.currentGapSize == d.gapSize
      && r.score >= s.score && (s.isSlapping ==> r.isSlapping)
      && |r.faces| == |faces|
      && forall k :: 0 <= k < |faces| ==>
           r.faces[k].x == faces[k].x && r.faces[k].y == faces[k].y && r.faces[k].emoji == faces[k].emoji
           && (faces[k].isSlapped ==> r.faces[k].isSlapped)
  {
  }

  /** The state after a frame that does not end the game. */
  function Advance(s: GameState, rolls: Rolls): GameState
    requires RollsInRange(rolls) && CanAdvance(s) && !s.gameOver
  {
    Commit(s, CalculateDifficulty(s.score), NextPipes(s, rolls), NextFaces(s, rolls))
  }

  /**
   * The reducer as the component writes it, with no game-over test of its
   * own: it recomputes the frame from whatever state it is given.
   */
  function Reduce(s: GameState, rolls: Rolls): (r: GameState)
    requires RollsInRange(rolls) && CanReduce(s)
    ensures |r.pipes| == |s.pipes| && r.highScore >= s.highScore
  {
    var d := CalculateDifficulty(s.score);
    var pipes := RecyclePipes(MovePipes(s.pipes, d.speed), GetRandomGapStart(d.gapSize, rolls.gap));
    if Collides(s, pipes, d.gapSize) then EndGame(s)
    else Commit(s, d, pipes, NextFaces(s, rolls))
  }

  /** What one frame makes of a state. */
  function Tick(s: GameState, rolls: Rolls): (r: GameState)
    requires RollsInRange(rolls) && CanAdvance(s)
    ensures s.gameOver ==> r == s
    ensures |r.pipes| == |s.pipes|
    ensures r.score >= s.score && r.highScore >= s.highScore
  {
    if s.gameOver then s
    else if Crashes(s, rolls) then EndGame(s)
    else Advance(s, rolls)
  }

  /** Every pipe moved left by `speed`, in order. */
  method ScrollPipes(ps: seq<Pipe>, speed: real) returns (moved: seq<Pipe>)
    ensures moved == MovePipes(ps, speed)
  {
    moved := [];
    for i := 0 to |ps|
      invariant |moved| == i
      invariant forall k :: 0 <= k < i ==> moved[k] == MovePipe(ps[k], speed)
    {
      moved := moved + [ps[i].(x := ps[i].x - speed)];
    }
  }

  /** The faces still on screen, in order. */
  method FilterOnScreen(fs: seq<Face>) returns (kept: seq<Face>)
    ensures kept == KeepOnScreen(fs)
  {
    kept := [];
    for i := 0 to |fs|
      invariant kept == KeepOnScreen(fs[..i])
    {
      assert fs[..i + 1][..i] == fs[..i];
      if fs[i].x > -(FACE_SIZE as real) {
        kept := kept + [fs[i]];
      }
    }
    assert fs[..|fs|] == fs;
  }

  /** Every face moved left by `speed`, in order. */
  method ScrollFaces(fs: seq<Face>, speed: real) returns (moved: seq<Face>)
    ensures moved == MoveFaces(fs, speed)
  {
    moved := [];
    for i := 0 to |fs|
      invariant |moved| == i
      invariant forall k :: 0 <= k < i ==> moved[k] == MoveFace(fs[k], speed)
    {
      moved := moved + [fs[i].(x := fs[i].x - speed)];
    }
  }

  /**
   * The slap pass: marks every face the slap reaches, adding one point per
   * such face to `score`, and reports whether any was reached.
   */
  method SlapAll(fs: seq<Face>, pos: real, score: nat) returns (slapped: seq<Face>, newScore: nat, isSlappingNow: bool)
    ensures slapped == SlapFaces(fs, pos)
    ensures newScore == score + CountSlaps(fs, pos)
    ensures isSlappingNow == AnySlap(fs, pos)
  {
    slapped, newScore, isSlappingNow := [], score, false;
    for i := 0 to |fs|
      invariant |slapped| == i
      invariant forall k :: 0 <= k < i ==> slapped[k] == SlapFace(pos, fs[k])
      invariant newScore == score + CountSlaps(fs[..i], pos)
      invariant isSlappingNow <==> exists k :: 0 <= k < i && Slaps(pos, fs[k])
    {
      assert fs[..i + 1][..i] == fs[..i];
      if Slaps(pos, fs[i]) {
        newScore := newScore + 1;
        isSlappingNow := true;
        slapped := slapped + [fs[i].(isSlapped := true)];
      } else {
        slapped := slapped + [fs[i]];
      }
    }
    assert fs[..|fs|] == fs;
  }

  /** The scoring pass: one point per pipe that crossed the bird's line. */
  method ScorePassedPipes(ps: seq<Pipe>, speed: real, score: nat) returns (newScore: nat)
    ensures newScore == score + CountPassed(ps, speed)
  {
    newScore := score;
    for i := 0 to |ps|
      invariant newScore == score + CountPassed(ps[..i], speed)
    {
      assert ps[..i + 1][..i] == ps[..i];
      if ps[i].x + speed > BIRD_X as real && ps[i].x <= BIRD_X as real {
        newScore := newScore + 1;
      }
    }
    assert ps[..|ps|] == ps;
  }

  /**
   * The pipes of the next frame: scrolled, then the head shifted out and
   * a new tail pushed if the head has left the screen.
   */
  method AdvancePipes(pipes: seq<Pipe>, speed: real, gapSize: int, u: real) returns (newPipes: seq<Pipe>)
    requires IsUnit(u)
    requires |pipes| > 0 && (pipes[0].x - speed < -(PIPE_WIDTH as real) ==> |pipes| > 1)
    ensures newPipes == RecyclePipes(MovePipes(pipes, speed), GetRandomGapStart(gapSize, u))
  {
    newPipes := ScrollPipes(pipes, speed);
    if newPipes[0].x < -(PIPE_WIDTH as real) {
      newPipes := newPipes[1..];
      var lastPipe := newPipes[|newPipes| - 1];
      newPipes := newPipes + [Pipe(lastPipe.x + PIPE_SPACING as real, GetRandomGapStart(gapSize, u))];
    }
  }

  /** The faces of the next frame, before the slap: filtered, scrolled, maybe one spawned. */
  method AdvanceFaces(faces: seq<Face>, speed: real, rolls: Rolls) returns (newFaces: seq<Face>)
    requires RollsInRange(rolls)
    ensures newFaces == SpawnFace(MoveFaces(KeepOnScreen(faces), speed), rolls)
  {
    var kept := FilterOnScreen(faces);
    newFaces := ScrollFaces(kept, speed);
    if rolls.spawn < FACE_SPAWN_CHANCE || |newFaces| == 0 {
      newFaces := newFaces + [GetRandomFace(rolls.face)];
    }
  }

  /**
   * One frame, computed as the reducer computes it: gravity, difficulty,
   * the pipes and faces of the next frame, then the collision tests,
   * slaps and scoring of `Resolve`.
   */
  method Step(prev: GameState, rolls: Rolls) returns (next: GameState)
    requires RollsInRange(rolls) && CanAdvance(prev)
    ensures next == Tick(prev, rolls)
  {
    if prev.gameOver {
      return prev;
    }
    var d := CalculateDifficulty(prev.score);
    var newPipes := AdvancePipes(prev.pipes, d.speed, d.gapSize, rolls.gap);
    var newFaces := AdvanceFaces(prev.faces, d.speed, rolls);
    next := Resolve(prev, d, newPipes, newFaces);
  }

  /**
   * The rest of the frame: test the moved bird against the moved pipes,
   * slap faces while counting points, then either end the game, keeping
   * the previous state, or count the pipes passed and commit the frame.
   */
  method Resolve(prev: GameState, d: Difficulty, newPipes: seq<Pipe>, newFaces: seq<Face>) returns (next: GameState)
    ensures next == if Collides(prev, newPipes, d.gapSize) then EndGame(prev) else Commit(prev, d, newPipes, newFaces)
  {
    var newBirdVelocity := prev.birdVelocity + GRAVITY;
    var newBirdPosition := prev.birdPosition + newBirdVelocity;
    var speed, gapSize := d.speed, d.gapSize;

    var collision := PipeCollision(newPipes, newBirdPosition, gapSize);
    var slapped, newScore, isSlappingNow := SlapAll(newFaces, newBirdPosition, prev.score);
    var groundCollision := newBirdPosition > (GAME_HEIGHT - BIRD_SIZE) as real || newBirdPosition < 0.0;

    if collision || groundCollision {
      var newHighScore := if prev.score > prev.highScore then prev.score else prev.highScore;
      return prev.(gameOver := true, highScore := newHighScore);
    }

    newScore := ScorePassedPipes(newPipes, speed, newScore);
    next := prev.(birdPosition := newBirdPosition,
                  birdVelocity := newBirdVelocity,
                  pipes := newPipes,
                  faces := slapped,
                  score := newScore,
                  speed := speed,
                  currentGapSize := gapSize,
                  isSlapping := isSlappingNow || prev.isSlapping);
  }
}
