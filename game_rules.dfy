/**
 * The rules of `game.c` as functions on values: the transition table that
 * `initialize_game_fsm` registers, the triggers each frame handler fires, the
 * paddle speeds `do_input` sets, the scoring of `check_goal_conditions`, and the
 * per-frame dispatch of `game_process_frame`. The class in module Game is proved
 * against these functions.
 */
module GameRules {
  import Fsm
  import opened Entity

  datatype Option<T> = None | Some(value: T)

  /** `game_state_enum`; `StateGuard` is index 0 and is never a target. */
  datatype Mode = StateGuard | StartState | PlayingState | PauseState | GameOverState | TermState

  /** `game_trigger_enum`. */
  datatype Trigger = InitDoneTrigger | QuitGameTrigger | GameOverTrigger | AlwaysTrigger
                   | PauseTrigger | ResumeTrigger

  /** The action vector a frame reads (`game_actions_get`). */
  datatype Actions = Actions(p1Up: bool, p1Down: bool, p2Up: bool, p2Down: bool,
                             confirm: bool, pause: bool, quit: bool)

  /** Which player scores. */
  datatype Player = Player1 | Player2

  /** What one frame is given from outside the model: the action vector; the ball after the
      collision pipeline and its own update; each paddle's crossed edge and displacement;
      the two goal predicates evaluated on the moved ball; and the ball `ball_configure`
      would produce if a goal is handled on this frame. */
  datatype FrameInput = FrameInput(actions: Actions, ballMoved: Body, ballReset: Body,
                                   leftEdge: Edge, rightEdge: Edge,
                                   leftDx: int, leftDy: int, rightDx: int, rightDy: int,
                                   inLeftGoal: bool, inRightGoal: bool)

  /** The part of the game a frame changes, apart from the paddles: the machine's state, the
      two scores, the ball, and the application's running flag. */
  datatype Session = Session(mode: Mode, score1: nat, score2: nat, ball: Body, running: bool)

  const WinningScore: nat := 5
  const PaddleSpeed: int := 200

  /** The table `initialize_game_fsm` builds, one `fsm_on` per update, in the same order. */
  function GameTable(): Fsm.Table<Mode, Trigger>
  {
    map[][(StartState, AlwaysTrigger) := PlayingState]
         [(PlayingState, GameOverTrigger) := GameOverState]
         [(PlayingState, QuitGameTrigger) := TermState]
         [(PlayingState, PauseTrigger) := PauseState]
         [(PauseState, QuitGameTrigger) := TermState]
         [(PauseState, ResumeTrigger) := PlayingState]
         [(GameOverState, AlwaysTrigger) := TermState]
         [(TermState, AlwaysTrigger) := TermState]
  }

  /** The game's transitions written as a case split, every other pair a self-loop. */
  function DesignNext(s: Mode, t: Trigger): Mode
  {
    match (s, t)
    case (StartState, AlwaysTrigger) => PlayingState
    case (PlayingState, GameOverTrigger) => GameOverState
    case (PlayingState, QuitGameTrigger) => TermState
    case (PlayingState, PauseTrigger) => PauseState
    case (PauseState, QuitGameTrigger) => TermState
    case (PauseState, ResumeTrigger) => PlayingState
    case (GameOverState, AlwaysTrigger) => TermState
    case _ => s
  }

  /** Fires the trigger a handler selected, if any. */
  function Fire(m: Mode, t: Option<Trigger>): Mode
  {
    match t
    case None => m
    case Some(t) => Fsm.Step(GameTable(), m, t)
  }

  /** The trigger `do_input` fires: quit before pause. */
  function InputTrigger(a: Actions): Option<Trigger>
  {
    if a.quit then Some(QuitGameTrigger) else if a.pause then Some(PauseTrigger) else None
  }

  /** The trigger `start_state_process_frame` fires: confirm before quit. */
  function StartFrameTrigger(a: Actions): Option<Trigger>
  {
    if a.confirm then Some(AlwaysTrigger) else if a.quit then Some(QuitGameTrigger) else None
  }

  /** The trigger `pause_state_process_frame` fires: confirm (resume) before quit. */
  function PauseFrameTrigger(a: Actions): Option<Trigger>
  {
    if a.confirm then Some(ResumeTrigger) else if a.quit then Some(QuitGameTrigger) else None
  }

  function BoolToInt(b: bool): int
  {
    if b then 1 else 0
  }

  /** The vertical speed `do_input` gives a paddle: `(down - up) * 200`. */
  function PaddleVelocity(up: bool, down: bool): (vy: int)
    ensures vy == -PaddleSpeed || vy == 0 || vy == PaddleSpeed
    ensures vy == 0 <==> up == down
    ensures vy == PaddleSpeed <==> down && !up
    ensures vy == -PaddleSpeed <==> up && !down
  {
    (BoolToInt(down) - BoolToInt(up)) * PaddleSpeed
  }

  /** The triggers the score test of `check_goal_conditions` fires: game over, at most once. */
  function GoalTriggers(score1: nat, score2: nat): (ts: seq<Trigger>)
    ensures |ts| <= 1
    ensures ts != [] <==> score1 >= WinningScore || score2 >= WinningScore
    ensures forall i :: 0 <= i < |ts| ==> ts[i] == GameOverTrigger
  {
    if score1 >= WinningScore then [GameOverTrigger]
    else if score2 >= WinningScore then [GameOverTrigger]
    else []
  }

  /** `handle_goal`: one more point for `p`, and the ball as `ball_configure` leaves it. */
  function HandleGoal(s: Session, p: Player, reset: Body): Session
  {
    match p
    case Player1 => s.(score1 := s.score1 + 1, ball := reset)
    case Player2 => s.(score2 := s.score2 + 1, ball := reset)
  }

  /** `check_goal_conditions`: a left goal credits player 2, otherwise a right goal credits
      player 1; then game over fires when a score has reached the winning score. */
  function CheckGoals(s: Session, inLeft: bool, inRight: bool, reset: Body): (r: Session)
    ensures r.running == s.running
    ensures inLeft ==> r.score1 == s.score1 && r.score2 == s.score2 + 1 && r.ball == reset
    ensures !inLeft && inRight ==> r.score1 == s.score1 + 1 && r.score2 == s.score2 && r.ball == reset
    ensures !inLeft && !inRight ==> r.score1 == s.score1 && r.score2 == s.score2 && r.ball == s.ball
    ensures r.mode == if r.score1 >= WinningScore || r.score2 >= WinningScore
                      then Fsm.Step(GameTable(), s.mode, GameOverTrigger) else s.mode
  {
    var scored := if inLeft then HandleGoal(s, Player2, reset)
                  else if inRight then HandleGoal(s, Player1, reset)
                  else s;
    var fired := GoalTriggers(scored.score1, scored.score2);
    assert fired != [] ==> Fsm.Run(GameTable(), scored.mode, fired)
                           == Fsm.Run(GameTable(), Fsm.Step(GameTable(), scored.mode, GameOverTrigger), []);
    scored.(mode := Fsm.Run(GameTable(), scored.mode, fired))
  }

  /** `playing_state_process_frame` on the session: input triggers, the moved ball, then goals. */
  function PlayingStep(s: Session, input: FrameInput): Session
  {
    var afterInput := s.(mode := Fire(s.mode, InputTrigger(input.actions)), ball := input.ballMoved);
    CheckGoals(afterInput, input.inLeftGoal, input.inRightGoal, input.ballReset)
  }

  /** `game_process_frame`: the handler the current state selects. */
  function Frame(s: Session, input: FrameInput): Session
  {
    match s.mode
    case StartState => s.(mode := Fire(s.mode, StartFrameTrigger(input.actions)))
    case PlayingState => PlayingStep(s, input)
    case PauseState => s.(mode := Fire(s.mode, PauseFrameTrigger(input.actions)))
    case GameOverState => s.(mode := Fsm.Step(GameTable(), s.mode, AlwaysTrigger))
    case TermState => s.(running := false)
    case StateGuard => s
  }

  /** The session after the frames `inputs`, in order. */
  function Frames(s: Session, inputs: seq<FrameInput>): Session
    decreases |inputs|
  {
    if inputs == [] then s else Frames(Frame(s, inputs[0]), inputs[1..])
  }

  /** The trigger a handler selected, as a sequence of zero or one triggers. */
  function Fired(t: Option<Trigger>): seq<Trigger>
  {
    match t
    case None => []
    case Some(t) => [t]
  }

  /** The triggers one frame fires, in order. */
  function FrameTriggers(s: Session, input: FrameInput): seq<Trigger>
  {
    match s.mode
    case StartState => Fired(StartFrameTrigger(input.actions))
    case PlayingState =>
      var r := Frame(s, input);
      Fired(InputTrigger(input.actions)) + GoalTriggers(r.score1, r.score2)
    case PauseState => Fired(PauseFrameTrigger(input.actions))
    case GameOverState => [AlwaysTrigger]
    case TermState => []
    case StateGuard => []
  }

  /** The session right after `game_init`. */
  function InitialSession(ballStart: Body): Session
  {
    Session(StartState, 0, 0, ballStart, true)
  }

  // ---------------------------------------------------------------------------
  // The transition table
  // ---------------------------------------------------------------------------

  /** The registered table is the case split: registered pairs go to their target, all others stay put. */
  lemma TableMatchesDesign(s: Mode, t: Trigger)
    ensures Fsm.Step(GameTable(), s, t) == DesignNext(s, t)
  {
  }

  /** Exactly eight pairs are registered. */
  lemma RegisteredPairs()
    ensures GameTable().Keys == {(StartState, AlwaysTrigger), (PlayingState, GameOverTrigger),
                                 (PlayingState, QuitGameTrigger), (PlayingState, PauseTrigger),
                                 (PauseState, QuitGameTrigger), (PauseState, ResumeTrigger),
                                 (GameOverState, AlwaysTrigger), (TermState, AlwaysTrigger)}
  {
  }

  /** The machine starts in START, and START plus ALWAYS goes to PLAYING. */
  lemma StartThenPlaying(ballStart: Body)
    ensures InitialSession(ballStart).mode == StartState
    ensures Fsm.Step(GameTable(), InitialSession(ballStart).mode, AlwaysTrigger) == PlayingState
  {
  }

  /** No registered transition targets the guard state. */
  lemma GuardNeverTarget()
    ensures forall k :: k in GameTable() ==> GameTable()[k] != StateGuard
  {
  }

  /** TERM leaves itself under every trigger. */
  lemma TermSelfLoop(t: Trigger)
    ensures Fsm.Step(GameTable(), TermState, t) == TermState
  {
  }

  /** Once in TERM, no sequence of triggers leaves it. */
  lemma {:induction false} TermAbsorbing(ts: seq<Trigger>)
    ensures Fsm.Run(GameTable(), TermState, ts) == TermState
  {
    forall t: Trigger ensures Fsm.Step(GameTable(), TermState, t) == TermState {
      TermSelfLoop(t);
    }
    Fsm.AbsorbingStaysPut(GameTable(), TermState, ts);
  }

  /** The states other than the guard. */
  function NonGuard(): set<Mode>
  {
    {StartState, PlayingState, PauseState, GameOverState, TermState}
  }

  /** From any state but the guard, no sequence of triggers reaches the guard. */
  lemma {:induction false} GuardUnreachable(s: Mode, ts: seq<Trigger>)
    requires s != StateGuard
    ensures Fsm.Run(GameTable(), s, ts) != StateGuard
  {
    forall x, t: Trigger | x in NonGuard() ensures Fsm.Step(GameTable(), x, t) in NonGuard() {
      TableMatchesDesign(x, t);
    }
    Fsm.ClosedStaysIn(GameTable(), NonGuard(), s, ts);
  }

  // ---------------------------------------------------------------------------
  // Frame handlers
  // ---------------------------------------------------------------------------

  /** In PLAYING, quit beats pause: with quit pressed the frame ends in TERM, whatever else happens. */
  lemma QuitBeatsPause(s: Session, input: FrameInput)
    requires s.mode == PlayingState && input.actions.quit
    ensures Frame(s, input).mode == TermState
  {
  }

  /** In PLAYING, pause without quit moves to PAUSE; a game-over trigger later in the frame is then ignored. */
  lemma PauseWithoutQuit(s: Session, input: FrameInput)
    requires s.mode == PlayingState && !input.actions.quit && input.actions.pause
    ensures Frame(s, input).mode == PauseState
  {
  }

  /** In PLAYING with neither quit nor pause, the frame ends in GAME_OVER exactly when a score has reached 5. */
  lemma PlayingGameOver(s: Session, input: FrameInput)
    requires s.mode == PlayingState && !input.actions.quit && !input.actions.pause
    ensures var r := Frame(s, input);
            r.mode == (if r.score1 >= WinningScore || r.score2 >= WinningScore
                       then GameOverState else PlayingState)
  {
  }

  /** A playing frame gives at most one point, and gives one exactly when a goal predicate holds. */
  lemma AtMostOnePoint(s: Session, input: FrameInput)
    requires s.mode == PlayingState
    ensures var r := Frame(s, input);
            s.score1 <= r.score1 && s.score2 <= r.score2 && r.score1 + r.score2 <= s.score1 + s.score2 + 1
    ensures var r := Frame(s, input);
            r.score1 + r.score2 == s.score1 + s.score2 + 1 <==> input.inLeftGoal || input.inRightGoal
  {
  }

  /** Only a playing frame changes the scores or the ball. */
  lemma OnlyPlayingScores(s: Session, input: FrameInput)
    requires s.mode != PlayingState
    ensures var r := Frame(s, input);
            r.score1 == s.score1 && r.score2 == s.score2 && r.ball == s.ball
  {
  }

  /** In START, confirm beats quit and moves to PLAYING; quit alone is not registered there and changes nothing. */
  lemma StartFrameRules(s: Session, input: FrameInput)
    requires s.mode == StartState
    ensures input.actions.confirm ==> Frame(s, input).mode == PlayingState
    ensures !input.actions.confirm ==> Frame(s, input) == s
  {
  }

  /** In PAUSE, confirm resumes to PLAYING, otherwise quit moves to TERM, otherwise nothing changes. */
  lemma PauseFrameRules(s: Session, input: FrameInput)
    requires s.mode == PauseState
    ensures input.actions.confirm ==> Frame(s, input) == s.(mode := PlayingState)
    ensures !input.actions.confirm && input.actions.quit ==> Frame(s, input) == s.(mode := TermState)
    ensures !input.actions.confirm && !input.actions.quit ==> Frame(s, input) == s
  {
  }

  /** A GAME_OVER frame moves to TERM and the next frame stops the application: game over passes once. */
  lemma GameOverThenStop(s: Session, first: FrameInput, second: FrameInput)
    requires s.mode == GameOverState
    ensures Frame(s, first) == s.(mode := TermState)
    ensures Frame(Frame(s, first), second) == s.(mode := TermState, running := false)
  {
  }

  /** Once in TERM, any frames keep it there with scores and ball untouched, and any frame clears the running flag. */
  lemma {:induction false} TermFramesAbsorbing(s: Session, inputs: seq<FrameInput>)
    requires s.mode == TermState
    ensures var r := Frames(s, inputs);
            r.mode == TermState && r.score1 == s.score1 && r.score2 == s.score2 && r.ball == s.ball
    ensures inputs != [] ==> !Frames(s, inputs).running
    decreases |inputs|
  {
    if inputs != [] {
      var next := Frame(s, inputs[0]);
      assert next == s.(running := false);
      TermFramesAbsorbing(next, inputs[1..]);
    }
  }

  /** Across any frames the scores never decrease and the machine never reaches the guard state. */
  lemma {:induction false} FramesMonotone(s: Session, inputs: seq<FrameInput>)
    requires s.mode != StateGuard
    ensures var r := Frames(s, inputs);
            s.score1 <= r.score1 && s.score2 <= r.score2 && r.mode != StateGuard
    decreases |inputs|
  {
    if inputs != [] {
      var next := Frame(s, inputs[0]);
      forall t: Trigger ensures Fsm.Step(GameTable(), s.mode, t) != StateGuard {
        TableMatchesDesign(s.mode, t);
      }
      FramesMonotone(next, inputs[1..]);
    }
  }

  /** A winning goal on a frame that also pauses leaves the machine in PAUSE: the game-over trigger is dropped there. */
  lemma PausedWinDefersGameOver(s: Session, input: FrameInput)
    requires s.mode == PlayingState && s.score2 == WinningScore - 1
    requires !input.actions.quit && input.actions.pause && input.inLeftGoal
    ensures var r := Frame(s, input);
            r.mode == PauseState && r.score2 == WinningScore
  {
  }

  /** Game over is deferred, not lost: resuming with a score at 5 ends the next undisturbed playing frame in GAME_OVER. */
  lemma WinPersists(s: Session, resume: FrameInput, play: FrameInput)
    requires s.mode == PauseState && (s.score1 >= WinningScore || s.score2 >= WinningScore)
    requires resume.actions.confirm && !play.actions.quit && !play.actions.pause
    ensures Frames(s, [resume, play]).mode == GameOverState
  {
    var r1 := Frame(s, resume);
    PauseFrameRules(s, resume);
    assert r1 == s.(mode := PlayingState);
    var r2 := Frame(r1, play);
    AtMostOnePoint(r1, play);
    PlayingGameOver(r1, play);
    assert r2.mode == GameOverState;
    assert [resume, play][0] == resume && [resume, play][1..] == [play];
    assert Frames(s, [resume, play]) == Frames(r1, [play]);
    assert [play][0] == play && [play][1..] == [];
    assert Frames(r1, [play]) == Frames(r2, []) == r2;
  }

  /** The mode after a frame is exactly where the frame's triggers lead from the mode before it. */
  lemma {:induction false} FrameFollowsTriggers(s: Session, input: FrameInput)
    ensures Frame(s, input).mode == Fsm.Run(GameTable(), s.mode, FrameTriggers(s, input))
  {
    var ts := FrameTriggers(s, input);
    if s.mode == PlayingState {
      var first := Fired(InputTrigger(input.actions));
      var r := Frame(s, input);
      var goal := GoalTriggers(r.score1, r.score2);
      var m1 := Fire(s.mode, InputTrigger(input.actions));
      assert Fsm.Run(GameTable(), s.mode, first) == m1;
      if first == [] {
        assert ts == goal;
      } else {
        assert ts[0] == first[0] && ts[1..] == goal;
      }
      assert Fsm.Run(GameTable(), s.mode, ts) == Fsm.Run(GameTable(), m1, goal);
      if goal != [] {
        assert goal[0] == GameOverTrigger && goal[1..] == [];
        assert Fsm.Run(GameTable(), m1, goal) == Fsm.Step(GameTable(), m1, GameOverTrigger);
      }
    } else if ts != [] {
      assert ts[1..] == [];
    }
  }

  /** One frame fires GAME_OVER_TRIGGER at most once. */
  lemma {:induction false} AtMostOneGameOverPerFrame(s: Session, input: FrameInput)
    ensures multiset(FrameTriggers(s, input))[GameOverTrigger] <= 1
  {
    if s.mode == PlayingState {
      var r := Frame(s, input);
      var goal := GoalTriggers(r.score1, r.score2);
      var first := Fired(InputTrigger(input.actions));
      assert multiset(first)[GameOverTrigger] == 0;
      assert goal == [] || goal == [GameOverTrigger];
      assert FrameTriggers(s, input) == first + goal;
      assert multiset(first + goal) == multiset(first) + multiset(goal);
    }
  }
}
