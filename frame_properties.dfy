/**
 * What one frame guarantees: the game-over branch, gravity, the pipe
 * queue and its recycling, the faces and their slaps, scoring, and the
 * session invariant `Valid` that every frame preserves.
 */
module FrameProperties {
  import opened GameModel
  import opened FrameStep

  // ---------------------------------------------------------------------
  // Ending the game
  // ---------------------------------------------------------------------

  /** A frame ends the game exactly when the bird hits a pipe or leaves the screen. */
  lemma TickEndsGameIff(s: GameState, rolls: Rolls)
    requires RollsInRange(rolls) && CanAdvance(s) && !s.gameOver
    ensures Tick(s, rolls).gameOver <==> Crashes(s, rolls)
  {
  }

  /**
   * The frame that ends the game changes nothing but the flag and the
   * high score: the bird, pipes, faces and score stay as they were, and
   * points from slaps in that frame are lost.
   */
  lemma TickTerminal(s: GameState, rolls: Rolls)
    requires RollsInRange(rolls) && CanAdvance(s) && !s.gameOver
    requires Crashes(s, rolls)
    ensures Tick(s, rolls) == s.(gameOver := true, highScore := if s.score > s.highScore then s.score else s.highScore)
  {
  }

  /** Leaving the screen at the top or the bottom always ends the game. */
  lemma OffScreenEndsGame(s: GameState, rolls: Rolls)
    requires RollsInRange(rolls) && CanAdvance(s) && !s.gameOver
    requires s.birdPosition + s.birdVelocity + GRAVITY < 0.0
          || s.birdPosition + s.birdVelocity + GRAVITY > (GAME_HEIGHT - BIRD_SIZE) as real
    ensures Tick(s, rolls).gameOver
    ensures Tick(s, rolls).highScore >= s.score
  {
  }

  /** On a running game the frame is the reducer itself. */
  lemma TickIsReduce(s: GameState, rolls: Rolls)
    requires RollsInRange(rolls) && CanAdvance(s) && !s.gameOver
    ensures Tick(s, rolls) == Reduce(s, rolls)
  {
  }

  /**
   * With the head pipe on screen, two scrolls of the same pipes that differ
   * only in the random gap of a recycled pipe agree on the first two
   * pipes, and a recycled tail is far right of the bird.
   */
  lemma ScrollAgrees(ps: seq<Pipe>, speed: real, g1: int, g2: int)
    requires |ps| == 3 && Spaced(ps) && ps[0].x >= -(PIPE_WIDTH as real)
    requires 0.0 <= speed <= MAX_SPEED
    ensures var m := MovePipes(ps, speed);
      var r1 := RecyclePipes(m, g1);
      var r2 := RecyclePipes(m, g2);
      r1[..2] == r2[..2] && (r1[2] == r2[2] || r1[2].x >= (BIRD_X + BIRD_SIZE) as real)
  {
    var m := MovePipes(ps, speed);
    if NeedsRecycle(m) {
      assert ps[1].x == ps[0].x + PIPE_SPACING as real;
      assert ps[2].x == ps[1].x + PIPE_SPACING as real;
      assert RecyclePipes(m, g1)[2].x == m[2].x + PIPE_SPACING as real;
    }
  }

  /**
   * A frame that still runs on a crashed state changes nothing, whatever
   * its random values: the bird, pipes and score are those from before
   * the crash, so the reducer finds the same crash, and the high score
   * already counts the score.
   */
  lemma StaleFrameIsNoOp(s: GameState, rolls: Rolls, rolls2: Rolls)
    requires RollsInRange(rolls) && RollsInRange(rolls2) && Valid(s) && !s.gameOver
    requires Crashes(s, rolls)
    ensures Tick(s, rolls).gameOver && CanReduce(Tick(s, rolls))
    ensures Reduce(Tick(s, rolls), rolls2) == Tick(s, rolls)
  {
    var e := Tick(s, rolls);
    var d := CalculateDifficulty(s.score);
    var g1 := GetRandomGapStart(d.gapSize, rolls.gap);
    var g2 := GetRandomGapStart(d.gapSize, rolls2.gap);
    var p1 := NextPipes(s, rolls);
    var p2 := RecyclePipes(MovePipes(s.pipes, d.speed), g2);
    var pos := NewPosition(s);
    assert NewPosition(e) == pos;
    if !GroundCollision(pos) {
      var k :| 0 <= k < |p1| && HitsPipe(pos, p1[k], d.gapSize);
      ScrollAgrees(s.pipes, d.speed, g1, g2);
      HitsPipeIff(pos, p1[k], d.gapSize);
      if k < 2 {
        assert p1[k] == p1[..2][k] && p2[k] == p2[..2][k];
      }
      assert HitsPipe(pos, p2[k], d.gapSize);
    }
    assert Collides(e, p2, d.gapSize);
  }

  // ---------------------------------------------------------------------
  // Gravity
  // ---------------------------------------------------------------------

  /** A frame that goes on adds gravity to the velocity and the new velocity to the position. */
  lemma TickPhysics(s: GameState, rolls: Rolls)
    requires RollsInRange(rolls) && CanAdvance(s) && !s.gameOver
    requires !Crashes(s, rolls)
    ensures Tick(s, rolls).birdVelocity == s.birdVelocity + GRAVITY
    ensures Tick(s, rolls).birdPosition == s.birdPosition + Tick(s, rolls).birdVelocity
    ensures !Tick(s, rolls).gameOver
  {
  }

  /** From a new game the first frame moves the bird from 250 to 250.8 at velocity 0.8. */
  lemma FirstFrameExample(highScore: nat, face: FaceRolls, rolls: Rolls)
    requires FaceRollsInRange(face) && RollsInRange(rolls)
    ensures CanAdvance(InitialState(highScore, face))
    ensures Tick(InitialState(highScore, face), rolls).birdPosition == 250.8
    ensures Tick(InitialState(highScore, face), rolls).birdVelocity == 0.8
    ensures !Tick(InitialState(highScore, face), rolls).gameOver
  {
    var s := InitialState(highScore, face);
    var pipes := NextPipes(s, rolls);
    assert pipes == [Pipe(395.0, 200), Pipe(695.0, 250), Pipe(995.0, 150)];
    assert forall k :: 0 <= k < |pipes| ==> pipes[k].x >= 395.0;
    assert !Crashes(s, rolls);
  }

  // ---------------------------------------------------------------------
  // Pipes
  // ---------------------------------------------------------------------

  /**
   * The head pipe is recycled exactly when, scrolled, it is wholly off
   * screen; the new tail then sits PIPE_SPACING after the old tail with a
   * gap that fits the current gap size.
   */
  lemma PipeRecycling(s: GameState, rolls: Rolls)
    requires RollsInRange(rolls) && CanAdvance(s) && !s.gameOver
    ensures var moved := MovePipes(s.pipes, CalculateDifficulty(s.score).speed);
      var r := NextPipes(s, rolls);
      var gap := CalculateDifficulty(s.score).gapSize;
      (moved[0].x < -(PIPE_WIDTH as real) ==>
         r[..|r| - 1] == moved[1..]
         && r[|r| - 1].x == moved[|moved| - 1].x + PIPE_SPACING as real
         && 50 <= r[|r| - 1].gapStart < GAME_HEIGHT - gap - 50)
      && (moved[0].x >= -(PIPE_WIDTH as real) ==> r == moved)
  {
    var gap := CalculateDifficulty(s.score).gapSize;
    var g := GetRandomGapStart(gap, rolls.gap);
    assert 50 <= g < GAME_HEIGHT - gap - 50;
  }

  /** A frame that goes on commits the recycled pipes. */
  lemma TickPipes(s: GameState, rolls: Rolls)
    requires RollsInRange(rolls) && CanAdvance(s) && !s.gameOver
    ensures Tick(s, rolls).pipes == if Crashes(s, rolls) then s.pipes else NextPipes(s, rolls)
  {
  }

  lemma MoveKeepsSpacing(ps: seq<Pipe>, speed: real)
    requires Spaced(ps) && GapsInRange(ps)
    ensures Spaced(MovePipes(ps, speed)) && GapsInRange(MovePipes(ps, speed))
  {
    var m := MovePipes(ps, speed);
    forall k | 0 <= k < |m| - 1
      ensures m[k + 1].x == m[k].x + PIPE_SPACING as real
    {
      assert ps[k + 1].x == ps[k].x + PIPE_SPACING as real;
    }
  }

  lemma RecycleKeepsSpacing(ps: seq<Pipe>, gapStart: int)
    requires |ps| > 1 && Spaced(ps) && GapsInRange(ps)
    requires 50 <= gapStart < GAME_HEIGHT - MIN_PIPE_GAP - 50
    ensures Spaced(RecyclePipes(ps, gapStart)) && GapsInRange(RecyclePipes(ps, gapStart))
  {
    var r := RecyclePipes(ps, gapStart);
    if NeedsRecycle(ps) {
      var rest := ps[1..];
      assert r == rest + [Pipe(rest[|rest| - 1].x + PIPE_SPACING as real, gapStart)];
      forall k | 0 <= k < |r| - 1
        ensures r[k + 1].x == r[k].x + PIPE_SPACING as real
      {
        if k < |rest| - 1 {
          assert r[k] == ps[k + 1] && r[k + 1] == ps[k + 2];
        }
      }
      forall k | 0 <= k < |r|
        ensures 50 <= r[k].gapStart < GAME_HEIGHT - MIN_PIPE_GAP - 50
      {
        if k < |rest| {
          assert r[k] == ps[k + 1];
        }
      }
    }
  }

  /** The next frame's pipes are again evenly spaced, with gaps in range. */
  lemma NextPipesSpaced(s: GameState, rolls: Rolls)
    requires RollsInRange(rolls) && !s.gameOver && Valid(s)
    ensures Spaced(NextPipes(s, rolls)) && GapsInRange(NextPipes(s, rolls))
  {
    var d := CalculateDifficulty(s.score);
    var moved := MovePipes(s.pipes, d.speed);
    MoveKeepsSpacing(s.pipes, d.speed);
    RecycleKeepsSpacing(moved, GetRandomGapStart(d.gapSize, rolls.gap));
  }

  // ---------------------------------------------------------------------
  // Faces and slaps
  // ---------------------------------------------------------------------

  /** Slapping marks exactly as many more faces as it scores. */
  lemma {:induction false} SlapCount(fs: seq<Face>, pos: real)
    ensures NumSlapped(SlapFaces(fs, pos)) == NumSlapped(fs) + CountSlaps(fs, pos)
  {
    if fs != [] {
      var n := |fs|;
      var init := fs[..n - 1];
      SlapCount(init, pos);
      var sl := SlapFaces(fs, pos);
      assert sl[..n - 1] == SlapFaces(init, pos);
      assert sl[n - 1] == SlapFace(pos, fs[n - 1]);
    }
  }

  /**
   * A face is scored at most once: two slap passes, wherever the bird is
   * for each, score no more points together than there are faces.
   */
  lemma {:induction false} SlapOnce(fs: seq<Face>, pos: real, pos2: real)
    ensures CountSlaps(fs, pos) + CountSlaps(SlapFaces(fs, pos), pos2) <= |fs|
  {
    if fs != [] {
      var n := |fs|;
      var init := fs[..n - 1];
      SlapOnce(init, pos, pos2);
      var sl := SlapFaces(fs, pos);
      assert sl[..n - 1] == SlapFaces(init, pos);
      assert sl[n - 1] == SlapFace(pos, fs[n - 1]);
    }
  }

  /** In particular, a second pass at the same spot scores nothing. */
  lemma SlapAgainScoresNothing(fs: seq<Face>, pos: real)
    ensures CountSlaps(SlapFaces(fs, pos), pos) == 0
  {
    var sl := SlapFaces(fs, pos);
    assert forall k :: 0 <= k < |sl| ==> !Slaps(pos, sl[k]);
  }

  /**
   * Faces kept from the last frame come first in the next one, scrolled by
   * the current speed, at the same height, with the same emoji, and a
   * face once slapped is still slapped.
   */
  lemma TickFaces(s: GameState, rolls: Rolls)
    requires RollsInRange(rolls) && CanAdvance(s) && !s.gameOver
    requires !Crashes(s, rolls)
    ensures var kept := KeepOnScreen(s.faces);
      var r := Tick(s, rolls).faces;
      var speed := CalculateDifficulty(s.score).speed;
      |kept| <= |r| <= |kept| + 1
      && forall k :: 0 <= k < |kept| ==>
           r[k].x == kept[k].x - speed && r[k].y == kept[k].y && r[k].emoji == kept[k].emoji
           && (kept[k].isSlapped ==> r[k].isSlapped)
  {
  }

  /** While the game goes on there is always a face on screen. */
  lemma TickFacesNonEmpty(s: GameState, rolls: Rolls)
    requires RollsInRange(rolls) && CanAdvance(s) && !s.gameOver
    requires !Crashes(s, rolls)
    ensures 0 < |Tick(s, rolls).faces| <= |s.faces| + 1
  {
  }

  /**
   * A frame that goes on adds to the score one point per face it newly
   * marks as slapped and one per pipe that crossed the bird's line, and
   * shows the fist exactly when it slapped or already showed it.
   */
  lemma TickScore(s: GameState, rolls: Rolls)
    requires RollsInRange(rolls) && CanAdvance(s) && !s.gameOver
    requires !Crashes(s, rolls)
    ensures var r := Tick(s, rolls);
      r.score == s.score + (NumSlapped(r.faces) - NumSlapped(NextFaces(s, rolls)))
                 + CountPassed(r.pipes, CalculateDifficulty(s.score).speed)
    ensures Tick(s, rolls).isSlapping
        <==> s.isSlapping || CountSlaps(NextFaces(s, rolls), NewPosition(s)) > 0
  {
    SlapCount(NextFaces(s, rolls), NewPosition(s));
  }

  // ---------------------------------------------------------------------
  // The session invariant
  // ---------------------------------------------------------------------

  /** Every frame of a valid state yields a valid state, with the difficulty of its score. */
  lemma TickPreservesValid(s: GameState, rolls: Rolls)
    requires RollsInRange(rolls) && Valid(s)
    ensures CanAdvance(s) && Valid(Tick(s, rolls))
    ensures !s.gameOver && !Tick(s, rolls).gameOver ==>
      Tick(s, rolls).speed == CalculateDifficulty(s.score).speed
      && Tick(s, rolls).currentGapSize == CalculateDifficulty(s.score).gapSize
  {
    if !s.gameOver && !Crashes(s, rolls) {
      NextPipesSpaced(s, rolls);
    }
  }
}
