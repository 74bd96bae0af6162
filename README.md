# Pong: game-mode state machine, frame rules and paddle placement

This project models the core of a two-player Pong game written in C on SDL2:

- the table-driven state machine that coordinates the game's modes (START, PLAYING,
  PAUSE, GAME_OVER, TERM, plus an unused guard state at index 0);
- the per-frame dispatcher that picks a handler by the current mode, the
  triggers each handler fires from the action vector, the paddle velocities set
  from the up/down keys, and the goal and scoring logic that ends the game at 5;
- how a paddle is placed on the field, how it moves, and how it answers a field edge.

Layout:

- `fsm.dfy` (module `Fsm`): the engine as a class `Machine` over a
  `(state, trigger) -> state` map. A pair that was never registered leaves the
  state unchanged, and registering a pair again overwrites it. Generic lemmas cover
  runs of triggers.
- `entity.dfy` (module `Entity`): the value types: box, body (box plus velocity),
  edge, direction.
- `paddle.dfy` (module `Paddle`): the class `Paddle`, with fields updated in place,
  and the pure layout functions its methods are proved against. C's truncating
  integer division is written out as `TruncDiv`.
- `game_rules.dfy` (module `GameRules`): the game's rules as functions on values.
  It holds the registered table, the trigger each handler selects, the goal
  scoring, and one frame (`Frame`) and many frames (`Frames`) on a `Session`
  (mode, two scores, ball, running flag). It also holds the lemmas about them.
- `game.dfy` (module `Game`): the class `Game` for the module-level statics of
  `game.c`. Its handler methods are proved to change the session exactly as the
  `GameRules` functions say. Two client methods drive whole scenarios.

Two consequences of the code that the lemmas make explicit:

- `start_state_process_frame` fires QUIT_GAME_TRIGGER when quit is pressed
  without confirm. No (START, QUIT) transition is registered, so quit on the
  title screen does nothing (`GameRules.StartFrameRules`).
- A playing frame runs the goal checks even after `do_input` has fired
  PAUSE. When the winning goal lands on a frame that also pauses, the
  GAME_OVER_TRIGGER arrives in PAUSE, which ignores it. Game over then waits
  for the next undisturbed playing frame (`GameRules.PausedWinDefersGameOver`,
  `GameRules.WinPersists`).

## Model

| member | source | states |
|---|---|---|
| `Fsm.Machine.constructor` | src/game/game.c:214 | a new machine has an empty table, an empty trigger log, and is in the given initial state |
| `Fsm.Machine.On` | src/game/game.c:217-232 | registering (from, t) -> to overwrites that one entry and leaves the current state alone |
| `Fsm.Machine.Fire` | src/game/game.c:126 | the new state is the registered target, or the old state when the pair has no entry; the table does not change; the trigger is appended to the log of fired triggers |
| `Fsm.AbsorbingStaysPut` | src/game/game.c:232 | a state that every trigger leaves in place is kept by every sequence of triggers |
| `Fsm.ClosedStaysIn` | src/game/game.c:213-233 | a set of states closed under single steps is closed under any run |
| `Game.InitializeGameFsm` | src/game/game.c:213-233 | the built machine starts in START and holds exactly the table `GameTable` |
| `GameRules.TableMatchesDesign` | src/game/game.c:213-233 | every (state, trigger) steps to the target of the independent case split `DesignNext`, whose unlisted pairs are self-loops |
| `GameRules.RegisteredPairs` | src/game/game.c:216-232 | exactly the eight listed pairs are registered |
| `GameRules.StartThenPlaying` | src/game/game.c:214-217 | the session starts in START, and ALWAYS from START goes to PLAYING |
| `GameRules.GuardNeverTarget` | src/game/game.c:213-233 | no registered transition targets STATE_GUARD |
| `GameRules.TermSelfLoop` | src/game/game.c:232 | every trigger leaves TERM in TERM |
| `GameRules.TermAbsorbing` | src/game/game.c:232 | from TERM, every sequence of triggers ends in TERM |
| `GameRules.GuardUnreachable` | src/game/game.c:213-233 | from any state but the guard, no sequence of triggers reaches the guard |
| `GameRules.PaddleVelocity` | src/game/game.c:149-155 | the velocity is -200, 0 or 200; it is 0 exactly when both or neither key is held; 200 exactly for down alone, -200 for up alone |
| `GameRules.GoalTriggers` | src/game/game.c:124-132 | at most one GAME_OVER_TRIGGER fires, and one fires exactly when a score is at least 5 |
| `GameRules.CheckGoals` | src/game/game.c:106-133 | a left goal credits player 2, otherwise a right goal credits player 1, each by exactly 1 and with the ball set to the `ball_configure` result; with no goal nothing but the mode may change; game over is fired exactly when a score is at least 5 afterwards |
| `GameRules.QuitBeatsPause` | src/game/game.c:139-147 | in PLAYING with quit pressed the frame ends in TERM, whether or not pause is pressed and whatever the goals do |
| `GameRules.PauseWithoutQuit` | src/game/game.c:143-147 | in PLAYING, pause without quit ends the frame in PAUSE |
| `GameRules.PlayingGameOver` | src/game/game.c:124-132 | an undisturbed playing frame ends in GAME_OVER exactly when a score has reached 5, otherwise in PLAYING |
| `GameRules.AtMostOnePoint` | src/game/game.c:110-120 | a playing frame never lowers a score, adds at most one point, and adds one exactly when a goal predicate holds |
| `GameRules.FrameFollowsTriggers` | src/game/game.c:372-395 | the mode after any frame is where that frame's fired triggers lead from the mode before it |
| `GameRules.AtMostOneGameOverPerFrame` | src/game/game.c:124-132 | no frame fires GAME_OVER_TRIGGER more than once |
| `GameRules.OnlyPlayingScores` | src/game/game.c:372-395 | frames in any other state leave scores and ball untouched |
| `GameRules.StartFrameRules` | src/game/game.c:280-290 | in START, confirm goes to PLAYING even with quit pressed; without confirm the session is unchanged |
| `GameRules.PauseFrameRules` | src/game/game.c:315-324 | in PAUSE, confirm resumes to PLAYING, otherwise quit goes to TERM, otherwise nothing changes |
| `GameRules.GameOverThenStop` | src/game/game.c:384-389 | a GAME_OVER frame moves to TERM, and the next frame clears the running flag |
| `GameRules.TermFramesAbsorbing` | src/game/game.c:387-389 | from TERM, any frames keep TERM, scores and ball, and at least one frame clears the running flag |
| `GameRules.FramesMonotone` | src/game/game.c:372-395 | over any frames the scores never decrease and the guard state is never reached |
| `GameRules.PausedWinDefersGameOver` | src/game/game.c:124-132 | a winning left goal on a frame that pauses ends in PAUSE with player 2 at 5 |
| `GameRules.WinPersists` | src/game/game.c:124-132 | resuming from PAUSE with a score at 5 ends the next undisturbed playing frame in GAME_OVER |
| `Game.Game.constructor` | src/game/game.c:247-258 | the field is the window at the origin, both paddles are configured for it, the ball is the configured ball, the session is the initial one |
| `Game.Game.HandleGoal` | src/game/game.c:86-89 | the player gets one point and the ball becomes the `ball_configure` result given for this goal |
| `Game.Game.CheckGoalConditions` | src/game/game.c:106-133 | the session becomes `CheckGoals` of the old session, and the triggers fired are exactly `GoalTriggers` of the new scores (at most one GAME_OVER) |
| `Game.Game.DoInput` | src/game/game.c:139-158 | quit fires before pause, and only the selected trigger is fired; each paddle's velocity becomes (0, `PaddleVelocity` of its keys) and nothing else of it changes |
| `Game.Game.DoUpdate` | src/game/game.c:165-178 | the ball takes its moved value; each paddle's vy becomes `EdgeResponse` of its crossed edge and it moves by its displacement with its size and vx kept; then the goals are checked, firing `GoalTriggers` of the new scores |
| `Game.Game.PlayingFrame` | src/game/game.c:203-207 | the session becomes `PlayingStep` of the old one; the fired triggers are the input trigger then `GoalTriggers`; each paddle is driven by its keys, turned by its edge, and moved |
| `Game.Game.StartFrame` | src/game/game.c:280-290 | confirm fires ALWAYS, otherwise quit fires QUIT, and nothing else is fired |
| `Game.Game.PauseFrame` | src/game/game.c:315-324 | confirm fires RESUME, otherwise quit fires QUIT, and nothing else is fired |
| `Game.Game.ProcessFrame` | src/game/game.c:372-395 | the session becomes `Frame` of the old one; the triggers fired are exactly `FrameTriggers`; the paddles change only in a playing frame |
| `Game.QuitScenario` | src/game/game.c:221 | from a new game: confirm, then quit in PLAYING, reaches TERM, and the next frame stops the application |
| `Game.LeftGoalScenario` | src/game/game.c:110-114 | from a new game: confirm, then a left goal leaves player 2 at 1, player 1 at 0, the ball at the frame's `ball_configure` result, still PLAYING |
| `Paddle.TruncDiv` | src/game/paddle.c:65 | the quotient rounds toward zero: the remainder has the dividend's sign and is smaller than the divisor |
| `Paddle.PaddleLayout` | src/game/paddle.c:65-101 | right.x - left.x equals field width minus one section; both paddles share y, are 8 by 128 and at rest |
| `Paddle.CornerAtMidHeight` | src/game/paddle.c:70-93 | the paddle's corner y is field.y plus half the field height rounded down, and so lies inside the field (the 8 by 128 box hangs below it) |
| `Paddle.CornerWithinSection` | src/game/paddle.c:65-92 | the section width is non-negative and the paddle's corner x lies within its own section |
| `Paddle.CornersInsideGameField` | src/game/paddle.c:62-93 | on the game's field at the origin, the corners satisfy 0 <= left.x <= right.x <= width and share a y inside the field |
| `Paddle.EdgeResponseTurnsAway` | src/game/paddle.c:19-30 | after the top edge the paddle moves down, after the bottom edge up, at the same speed; any other edge keeps vy |
| `Entity.Directed` | src/game/paddle.c:22-25 | the vertical speed is kept and its sign follows the direction: down is non-negative, up is non-positive |
| `Paddle.Paddle.constructor` | src/game/paddle.c:107-110 | a new paddle entity is all zero |
| `Paddle.Paddle.SetVelocity` | src/game/paddle.c:101 | only the velocity changes |
| `Paddle.Paddle.SetDirection` | src/game/paddle.c:22 | only vy changes, to `Directed` of the direction and the old vy |
| `Paddle.Paddle.Configure` | src/game/paddle.c:35-105 | the new transform and velocity are `Configured(field, id)`, whatever the old state, so reconfiguring gives the same paddle |
| `Paddle.Paddle.Update` | src/game/paddle.c:14-17 | only x and y change, by the given displacement; w, h and velocity are kept |
| `Paddle.Paddle.OutOfBounds` | src/game/paddle.c:19-30 | TOP directs the paddle down, BOTTOM directs it up, any other edge changes nothing; only vy can change |

## Left out

- The engine's own source (`fsm_init`, `fsm_on`, `fsm_trigger`, `fsm_state`, `fsm_term`) is not part of this model. It is modelled as a map from (state, trigger) to state. States and triggers are enumerated types, so non-positive counts (which `fsm_init` rejects) and out-of-range indices (undefined in `fsm_on`) cannot be written.
- `ball_configure`, `collision_process`, `collision_out_of_bounds_process` and the ball's own update are not part of this model. Their results are inputs. The ball configured at start-up is given to the constructor. The ball `ball_configure` yields on a goal is a per-frame input (`FrameInput.ballReset`), so it may differ from goal to goal. The moved ball, each paddle's crossed edge and the two goal predicates are fields of `FrameInput` too.
- `field_is_subject_in_left_goal` and `field_is_subject_in_right_goal` have no bodies here, so they are the boolean inputs `inLeftGoal` and `inRightGoal`.
- `player_inc_score` and `player_get_score` are not part of this model. Scores are naturals, with no `unsigned short` wrap-around.
- Paddle.Paddle.OutOfBounds: `entity_set_direction` is not part of this model. Its effect is an assumption: it acts on vy alone, DIR_DOWN making vy equal to `|vy|` and DIR_UP making it `-|vy|` (y grows downward). Any effect on vx, or any other state it keeps, is not modelled.
- Paddle.Paddle.SetDirection: states that same assumption about `entity_set_direction`, which is not part of this model.
- `Paddle.Paddle.Update`: takes the displacement `(int)(v * delta)` as given integers. The float multiplication and its truncation are not modelled.
- Entity velocities are integers. The source stores floats, but `paddle_configure` and `do_input` only assign integer values.
- C `int` is 32 bits wide. `TruncDiv` and the paddle arithmetic use unbounded integers, so an overflow of `field.x + field.w` is not modelled.
- `do_update` loops over the three-entity pool. The model writes out the paddles' two update calls; the ball's update is folded into the moved-ball input.
- Rendering is left out: `do_output`, `draw_entities`, the score strings, all `video_*` calls and the text prompts.
- The pulsing alpha animation of the START and PAUSE screens is left out: it mixes an `unsigned char` with float rate times delta.
- `app.c` is left out: SDL start-up and teardown, event polling, RNG seeding and frame timing (float delta, performance counters, `SDL_Delay`). Only `app_stop` is kept, as the `running` flag that a TERM frame clears.
- The log message of the unknown-state branch of `game_process_frame` is left out. A STATE_GUARD frame changes nothing.
