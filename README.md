# Slappy Bird game engine in Dafny

This project models the game engine of Slappy Bird, a single-screen arcade
game: a bird falls under gravity and jumps on command, pipes scroll in from
the right and must be flown through, and emoji faces drift by to be slapped
for points. The game gets faster and its pipe gaps tighter as the score
grows. The whole engine lives in `src/components/Game.tsx`. Only its
deterministic part is modelled here, separated from the React shell:

- `game_model.dfy` (module `GameModel`): the constants, the state record
  (`GameState`, `Pipe`, `Face`), the difficulty curve `CalculateDifficulty`,
  the random generators `GetRandomGapStart` and `GetRandomFace`, the fixed
  initial pipes and state, and `Valid`. `Valid` is the invariant every
  reachable state keeps: three pipes exactly 300 apart, gaps in range, the
  head pipe not wholly off screen, at least one face, speed and gap within
  their clamps, and a finished game's score counted in its high score.
- `frame_step.dfy` (module `FrameStep`): one animation frame. `Tick` is the
  specification of the reducer that the component passes to `setGameState`.
  `Step` computes the frame as the reducer does. Its loops are the smaller
  methods `ScrollPipes`, `FilterOnScreen`, `ScrollFaces`, `SlapAll`,
  `ScorePassedPipes`, `AdvancePipes`, `AdvanceFaces` and `Resolve`: they
  build new sequences one element at a time, shift and push a recycled pipe,
  and add up points. `Step` is proved equal to `Tick`.
- `frame_properties.dfy` (module `FrameProperties`): lemmas about `Tick`.
  They cover the game-over branch, gravity, pipe recycling, faces and slaps,
  scoring, and the preservation of `Valid`.
- `commands.dfy` (module `Commands`): the Playing/GameOver state machine.
  `Jump` covers both the jump and the restart. `Apply` and `Run` replay any
  sequence of frames and jumps. `HighScoreIsBestFinish` proves that the high
  score is the best finished game. `GameComponent` is the component's state
  cell; each event replaces its `gameState` wholesale.

Numbers. Positions, velocities and the speed are exact `real`s. The gap
size and the gap start are `int`s, because the game only ever gives them
integral values (constants and `Math.floor`). Every call of `Math.random()`
becomes an explicit real parameter `u` with `0 <= u < 1` (the datatypes
`Rolls` and `FaceRolls`). The generators scale and floor that parameter as
the game does, so their ranges are proved rather than assumed. An emoji is
an index into the palette of seven.

Three details of the code that the model keeps:

- A face's top is drawn as `u * 360 + 50`, so it lies in [50, 410): the
  offset 50 is added after scaling by `GAME_HEIGHT - FACE_SIZE - 100`.
- A recycled gap start is floored, so it is an integer in [50, 450 - gap):
  the upper end is never reached.
- The reducer itself has no game-over guard. The guard at
  `src/components/Game.tsx:119` sits in `updateGame`, which reschedules
  itself (line 251) with its own closure. So the `gameState` it reads is
  the one from the render in which the effect at lines 254-292 (keyed on
  `gameState.gameOver`) last started the loop. After a crash that effect
  re-runs: its cleanup (lines 285-287) cancels the pending frame, and the
  `updateGame` it starts sees `gameOver` and stops. The model puts the
  guard inside `Tick`, so a frame on a finished game returns it unchanged.
  That is also what the reducer does should a stale frame still run on a
  crashed state. The bird, pipes and score of such a state are those from
  before the crash, so the reducer recomputes the same crash. It then
  returns the state with `gameOver` still true and the high score already
  at least the score, which is the same state. `Reduce` is the reducer
  without the guard, and `StaleFrameIsNoOp` proves this for any random
  values.

`Step` needs `CanAdvance`. The reducer reads the head pipe, and when it
recycles it reads the new tail. So with no pipe, or with a single pipe to
recycle, it would throw. `Valid` (three pipes) implies `CanAdvance`.

## Model

Some helpers have no row of their own, because the lemmas below describe
them:
- `GroundCollision` (line 220) is covered by `TickEndsGameIff` and
  `OffScreenEndsGame`.
- `MovePipes` (lines 129-132) is covered by `ScrollPipes`,
  `MoveKeepsSpacing` and `PipeRecycling`.
- `MoveFaces` (lines 137-140) is covered by `ScrollFaces` and `TickFaces`.
- `NextFaces` (lines 134-145) is covered by `AdvanceFaces`, `TickFaces` and
  `TickScore`.
- `Crashes` (line 222) is covered by `TickEndsGameIff`, `TickTerminal` and
  `Transitions`.
- `Advance` (lines 238-248) is covered by `CommitKeeps`, `TickPhysics`,
  `TickPipes` and `TickScore`.

| member | source | states |
|---|---|---|
| GameModel.CalculateDifficulty | src/components/Game.tsx:69-85 | speed lies in [5, 8] and gap size in [100, 150] for every score |
| GameModel.DifficultyMonotone | src/components/Game.tsx:70-82 | a higher score never gives a lower speed or a wider gap |
| GameModel.DifficultyExamples | src/components/Game.tsx:69-85 | score 0 gives (5, 150); score 12 (level 2) gives (6, 140) |
| GameModel.SpeedCapThreshold | src/components/Game.tsx:73-76 | the speed equals the cap of 8 exactly when the score is at least 30 (level 6) |
| GameModel.GapFloorThreshold | src/components/Game.tsx:79-82 | the gap equals the floor of 100 exactly when the score is at least 50 (level 10) |
| GameModel.GetRandomGapStart | src/components/Game.tsx:53-57 | for any random value in [0, 1), the result is an integer in [50, 450 - gapSize) whenever the gap fits on screen |
| GameModel.GetRandomFace | src/components/Game.tsx:59-66 | a new face starts at x = 1000, unslapped, with its top in [50, 410) and an emoji index below 7 |
| GameModel.InitialState | src/components/Game.tsx:89-100 | a new game is running, at score 0 with the given high score, bird at 250 at rest, three pipes 300 apart with gaps in range, one fresh unslapped face, and the difficulty of score 0 (see also `InitialStateValid`) |
| GameModel.InitialStateValid | src/components/Game.tsx:89-100 | the starting state (bird at 250, the three fixed pipes, one face) is valid, running and scoreless |
| FrameStep.HitsPipeIff | src/components/Game.tsx:174-193 | `HitsPipe`: the bird hits a pipe exactly when the pipe's left edge lies in (-10, 80), so the columns overlap, and the bird's box is not wholly inside the gap |
| FrameStep.PipeCollisionIff | src/components/Game.tsx:174-194 | `PipeCollision`: no pipe is hit exactly when the bird is wholly inside the gap of every pipe whose columns it overlaps |
| FrameStep.SlapRect | src/components/Game.tsx:165-171 | the slap reaches from 5 above to 5 below the bird's box (top pos - 5, bottom pos + 35), horizontally from 70 to 100 |
| FrameStep.SlapsIff | src/components/Game.tsx:200-204 | `Slaps`: a face is slapped exactly when it is not yet slapped, its left edge is in (30, 100) and its top in (pos - 45, pos + 35) |
| FrameStep.SpawnFace | src/components/Game.tsx:142-145 | the faces are kept in order and one fresh face at x = 1000 is appended exactly when the spawn roll is below 0.01 or the list is empty, so the list is never empty afterwards |
| FrameStep.RecyclePipes | src/components/Game.tsx:148-155 | shifting out the head and pushing a new tail keeps the pipe count |
| FrameStep.KeepOnScreen | src/components/Game.tsx:135-136 | the filtered faces are all on screen and come from the input; every on-screen face is kept |
| FrameStep.KeepCounts | src/components/Game.tsx:135-136 | the filter keeps each on-screen face exactly as many times as it occurs, and drops every other face |
| FrameStep.KeepAppend | src/components/Game.tsx:135-136 | the filter keeps order: filtering a concatenation is the concatenation of the filtered parts |
| FrameStep.CountSlaps | src/components/Game.tsx:199-205 | the slap points are at most the number of faces, and zero exactly when no face is within reach |
| FrameStep.CountPassed | src/components/Game.tsx:232-236 | the pipe points are at most the number of pipes, and zero exactly when no pipe crossed x = 50 this frame |
| FrameStep.NextPipes | src/components/Game.tsx:129-155 | scrolling and recycling keep the number of pipes |
| FrameStep.EndGame | src/components/Game.tsx:222-228 | the ending state is marked over, its high score is the larger of the score and the old high score, and nothing else changes (see also `TickTerminal`) |
| FrameStep.CommitKeeps | src/components/Game.tsx:238-248 | `Commit`, the frame that goes on: it keeps the game running and the high score, commits the given pipes and difficulty, never lowers the score or clears the fist, and keeps each face's position and emoji with slapped faces still slapped (exact points in `TickScore`) |
| FrameStep.Tick | src/components/Game.tsx:118-249 | a finished game is left unchanged; the pipe count is kept; the score and the high score never decrease |
| FrameStep.Reduce | src/components/Game.tsx:121-248 | the reducer without the game-over test keeps the pipe count and never lowers the high score |
| FrameProperties.TickIsReduce | src/components/Game.tsx:118-249 | on a running game the frame is exactly the unguarded reducer |
| FrameProperties.StaleFrameIsNoOp | src/components/Game.tsx:121-251 | the unguarded reducer, run on the state a crash produced and with any random values, finds the same crash and returns that state unchanged |
| FrameStep.ScrollPipes | src/components/Game.tsx:129-132 | the loop yields every pipe moved left by the speed |
| FrameStep.FilterOnScreen | src/components/Game.tsx:135-136 | the loop yields exactly the on-screen faces, in order |
| FrameStep.ScrollFaces | src/components/Game.tsx:137-140 | the loop yields every face moved left by the speed |
| FrameStep.AdvancePipes | src/components/Game.tsx:148-155 | scrolling followed by the shift and push yields the specified next pipes |
| FrameStep.AdvanceFaces | src/components/Game.tsx:134-145 | the filter, the scroll and the conditional spawn yield the specified faces |
| FrameStep.SlapAll | src/components/Game.tsx:196-217 | the slap loop marks exactly the faces within reach, adds one point per marked face, and reports whether any face was reached |
| FrameStep.ScorePassedPipes | src/components/Game.tsx:231-236 | the scoring loop adds one point per pipe that crossed the bird's line |
| FrameStep.Resolve | src/components/Game.tsx:157-248 | a collision returns the previous state with the game ended; otherwise the frame is committed with slap and pipe points |
| FrameStep.Step | src/components/Game.tsx:121-249 | the reducer, computed step by step, equals `Tick` for every state it can run on |
| FrameProperties.TickEndsGameIff | src/components/Game.tsx:219-229 | a running game ends in this frame exactly when a pipe is hit or the bird leaves the screen |
| FrameProperties.TickTerminal | src/components/Game.tsx:222-229 | the ending frame keeps bird, pipes, faces and score, drops that frame's slap points, and sets the high score to max(score, highScore) |
| FrameProperties.OffScreenEndsGame | src/components/Game.tsx:219-220 | a new position below 0 or above 470 always ends the game, with the score counted in the high score |
| FrameProperties.TickPhysics | src/components/Game.tsx:122-123 | a frame that goes on sets velocity' = velocity + 0.8 and position' = position + velocity' |
| FrameProperties.FirstFrameExample | src/components/Game.tsx:238-241 | from a new game, one frame gives position 250.8 and velocity 0.8, still playing |
| FrameProperties.PipeRecycling | src/components/Game.tsx:148-155 | the head is recycled exactly when its scrolled x is below -60; the new tail is the old tail plus 300, with a gap start in [50, 450 - gap) |
| FrameProperties.TickPipes | src/components/Game.tsx:222-242 | the ending frame keeps the old pipes; otherwise the scrolled and recycled pipes are committed |
| FrameProperties.MoveKeepsSpacing | src/components/Game.tsx:129-132 | scrolling keeps the pipes 300 apart and their gaps in range |
| FrameProperties.RecycleKeepsSpacing | src/components/Game.tsx:148-155 | recycling keeps the pipes 300 apart and their gaps in range |
| FrameProperties.NextPipesSpaced | src/components/Game.tsx:129-155 | after a frame the pipes are still 300 apart, with every gap start in [50, 350) |
| FrameProperties.SlapCount | src/components/Game.tsx:199-217 | a slap pass marks exactly as many more faces as slapped as the points it adds |
| FrameProperties.SlapOnce | src/components/Game.tsx:200-214 | a face scores at most once: two slap passes at any two bird positions together score at most the number of faces |
| FrameProperties.SlapAgainScoresNothing | src/components/Game.tsx:200-214 | a second pass at the same spot scores nothing, since every face it reaches is already marked |
| FrameProperties.TickFaces | src/components/Game.tsx:135-145 | kept faces come first, moved left by the speed, with the same height and emoji, and a slapped face stays slapped; at most one face is added |
| FrameProperties.TickFacesNonEmpty | src/components/Game.tsx:143-145 | after a frame that goes on, at least one face is on the list |
| FrameProperties.TickScore | src/components/Game.tsx:197-247 | the score grows by exactly the newly slapped faces plus the pipes that crossed x = 50; the fist shows when something was slapped or already showed |
| FrameProperties.TickPreservesValid | src/components/Game.tsx:118-249 | every frame keeps the session invariant; a frame that goes on uses the difficulty of the old score |
| Commands.Jump | src/components/Game.tsx:258-276 | a jump always leaves the game running with the same high score and an upward or zero velocity; after game over it restarts at score 0 with the initial pipes and one face; while playing it keeps score, pipes and faces (exact results in `JumpWhilePlaying` and `JumpAfterGameOver`) |
| Commands.JumpWhilePlaying | src/components/Game.tsx:271-276 | while playing, a jump sets the velocity to -10 and changes nothing else |
| Commands.JumpAfterGameOver | src/components/Game.tsx:258-270 | after game over, a jump gives position 250, velocity 0, the initial pipes, one fresh face, score 0, speed 5, gap 150, no fist, running, with the old high score |
| Commands.JumpPreservesValid | src/components/Game.tsx:255-277 | a jump keeps the session invariant |
| Commands.Apply | src/components/Game.tsx:118-277 | a frame or a jump on a valid state yields a valid state |
| Commands.Transitions | src/components/Game.tsx:255-277 | a jump always leads to Playing; a frame leaves GameOver unchanged; a frame leaves Playing for GameOver exactly on a crash |
| Commands.ScoreDropsOnlyOnReset | src/components/Game.tsx:258-270 | the high score never drops; the score drops only when a jump restarts a finished game, and then to 0 |
| Commands.Run | src/components/Game.tsx:118-277 | any sequence of frames and jumps keeps the session invariant |
| Commands.HighScoreIsBestFinish | src/components/Game.tsx:222-228 | after any sequence of frames and jumps, the high score is the maximum of the starting high score and the final scores of the finished games |
| Commands.FramesAfterGameOver | src/components/Game.tsx:118-119 | once the game is over, any number of frames leaves the state unchanged |
| Commands.GameComponent.constructor | src/components/Game.tsx:89-100 | the component starts with a new game and high score 0, a valid state |
| Commands.GameComponent.UpdateGame | src/components/Game.tsx:118-252 | the state is replaced by the frame's result; nothing changes once the game is over |
| Commands.GameComponent.HandleJump | src/components/Game.tsx:304-324 | the state is replaced by the jump's result (the key handler at lines 255-277 is the same code) |

## Left out

- Rendering and JSX (`src/components/Game.tsx:294-442`), `Math.round` display formatting and the rules text are left out: they draw the state and do not change it.
- `src/app/page.tsx` is left out: it is page layout with no logic.
- Frame scheduling is left out. That covers `requestAnimationFrame` and `cancelAnimationFrame`, the `useEffect` registration, and keyboard wiring with `e.code` matching (lines 251-292). Only the abstract frame and jump events are modelled.
- The 500 ms `setTimeout` that clears `isSlapping` (lines 208-213) is left out: it is a timer, not part of the frame. The frame itself sets `isSlapping` to "slapped now or already slapping".
- `localStorage` is left out, both the read with `parseInt` at load (lines 107-116) and the write on a new high score (line 226): this is I/O. The component starts with high score 0, and the high score is a `nat`.
- `Math.random` is not modelled: each call becomes a parameter in [0, 1). The model also does not fix how many random values a frame draws, or in what order.
- IEEE-754 double rounding is left out: the arithmetic is exact, so repeated `+ 0.8` does not drift as it does in the browser.
- Emoji identity is left out: an emoji is an index in [0, 7).
- Modelling on values rather than in place: the game copies the pipe and face arrays and then changes its own copies (`shift`, `push`). The model builds new sequences instead, so no array is ever shared between states.
