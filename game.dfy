/**
 * The game session of `game.c`: the machine, the two scores, the ball, the two
 * paddles and the application's running flag, updated in place by the frame
 * handlers. Each handler is proved to do to the session what the matching
 * function of GameRules says.
 */
module Game {
  import Fsm
  import opened Entity
  import opened GameRules
  import Paddle

  /** `initialize_game_fsm`: a fresh machine in START holding the game's table. */
  method InitializeGameFsm() returns (m: Fsm.Machine<Mode, Trigger>)
    ensures fresh(m)
    ensures m.table == GameTable() && m.current == StartState && m.fired == []
  {
    m := new Fsm.Machine(StartState);
    // Start
    m.On(StartState, AlwaysTrigger, PlayingState);
    // Playing
    m.On(PlayingState, GameOverTrigger, GameOverState);
    m.On(PlayingState, QuitGameTrigger, TermState);
    m.On(PlayingState, PauseTrigger, PauseState);
    // Pause
    m.On(PauseState, QuitGameTrigger, TermState);
    m.On(PauseState, ResumeTrigger, PlayingState);
    // Game over
    m.On(GameOverState, AlwaysTrigger, TermState);
    // Terminating
    m.On(TermState, AlwaysTrigger, TermState);
  }

  /** A paddle after a playing frame: driven by its two keys, turned by the edge it crossed, moved by its displacement. */
  function PaddleAfterPlaying(b: Body, up: bool, down: bool, edge: Edge, dx: int, dy: int): Body
  {
    Body(Box(b.transform.x + dx, b.transform.y + dy, b.transform.w, b.transform.h),
         0, Paddle.EdgeResponse(edge, PaddleVelocity(up, down)))
  }

  class Game {
    /** The playing field, at the origin and as large as the window. */
    const field: Box
    const machine: Fsm.Machine<Mode, Trigger>
    const left: Paddle.Paddle
    const right: Paddle.Paddle
    var ball: Body
    var score1: nat
    var score2: nat
    /** The application's running flag, which `app_stop` clears. */
    var running: bool

    ghost predicate Valid()
      reads this, machine
    {
      machine.table == GameTable() && left != right
    }

    /** The session this game holds. */
    function View(): Session
      reads this, machine
    {
      Session(machine.current, score1, score2, ball, running)
    }

    /** `game_init` after the window is open: the field is the window, the entities are
        configured (the ball as `ball_configure` left it), the machine is built, and the
        scores start at zero. */
    constructor (windowWidth: int, windowHeight: int, configuredBall: Body)
      ensures Valid() && View() == InitialSession(configuredBall)
      ensures field == Box(0, 0, windowWidth, windowHeight)
      ensures left.Snapshot() == Paddle.Configured(field, Paddle.LeftPaddle)
      ensures right.Snapshot() == Paddle.Configured(field, Paddle.RightPaddle)
      ensures machine.fired == []
      ensures fresh(machine) && fresh(left) && fresh(right)
    {
      var f := Box(0, 0, windowWidth, windowHeight);
      var l := new Paddle.Paddle();
      l.Configure(f, Paddle.LeftPaddle);
      var r := new Paddle.Paddle();
      r.Configure(f, Paddle.RightPaddle);
      var m := InitializeGameFsm();
      field, ball := f, configuredBall;
      left, right, machine := l, r, m;
      score1, score2 := 0, 0;
      running := true;
    }

    /** `handle_goal`: credits `p` and puts the ball where `ball_configure` puts it (`reset`). */
    method HandleGoal(p: Player, reset: Body)
      modifies this
      ensures View() == GameRules.HandleGoal(old(View()), p, reset)
    {
      match p {
        case Player1 => score1 := score1 + 1;
        case Player2 => score2 := score2 + 1;
      }
      ball := reset;
    }

    /** `check_goal_conditions`, with the two goal predicates and the reset ball given;
        GAME_OVER_TRIGGER is fired at most once. */
    method CheckGoalConditions(inLeftGoal: bool, inRightGoal: bool, reset: Body)
      requires Valid()
      modifies this, machine
      ensures Valid()
      ensures View() == CheckGoals(old(View()), inLeftGoal, inRightGoal, reset)
      ensures machine.fired == old(machine.fired) + GoalTriggers(score1, score2)
    {
      if inLeftGoal {
        HandleGoal(Player2, reset);
      } else if inRightGoal {
        HandleGoal(Player1, reset);
      }
      if score1 >= WinningScore {
        machine.Fire(GameOverTrigger);
      } else if score2 >= WinningScore {
        machine.Fire(GameOverTrigger);
      }
    }

    /** `do_input`: quit before pause, then both paddles' velocities from their keys. */
    method DoInput(a: Actions)
      requires Valid()
      modifies machine, left, right
      ensures Valid()
      ensures machine.current == Fire(old(machine.current), InputTrigger(a))
      ensures machine.fired == old(machine.fired) + Fired(InputTrigger(a))
      ensures left.Snapshot() == old(left.Snapshot()).(vx := 0, vy := PaddleVelocity(a.p1Up, a.p1Down))
      ensures right.Snapshot() == old(right.Snapshot()).(vx := 0, vy := PaddleVelocity(a.p2Up, a.p2Down))
    {
      if a.quit {
        machine.Fire(QuitGameTrigger);
      } else if a.pause {
        machine.Fire(PauseTrigger);
      }
      left.SetVelocity(0, PaddleVelocity(a.p1Up, a.p1Down));
      right.SetVelocity(0, PaddleVelocity(a.p2Up, a.p2Down));
    }

    /** `do_update`: the ball as the collision pipeline and its update leave it, each paddle's
        edge response and move, then the goal checks. */
    method DoUpdate(input: FrameInput)
      requires Valid()
      modifies this, machine, left, right
      ensures Valid()
      ensures View() == CheckGoals(old(View()).(ball := input.ballMoved), input.inLeftGoal, input.inRightGoal, input.ballReset)
      ensures machine.fired == old(machine.fired) + GoalTriggers(score1, score2)
      ensures left.Snapshot() == old(left.Snapshot()).(transform := old(left.Snapshot()).transform.(x := old(left.x) + input.leftDx, y := old(left.y) + input.leftDy),
                                                       vy := Paddle.EdgeResponse(input.leftEdge, old(left.vy)))
      ensures right.Snapshot() == old(right.Snapshot()).(transform := old(right.Snapshot()).transform.(x := old(right.x) + input.rightDx, y := old(right.y) + input.rightDy),
                                                         vy := Paddle.EdgeResponse(input.rightEdge, old(right.vy)))
    {
      ball := input.ballMoved;
      left.OutOfBounds(input.leftEdge);
      right.OutOfBounds(input.rightEdge);
      left.Update(input.leftDx, input.leftDy);
      right.Update(input.rightDx, input.rightDy);
      CheckGoalConditions(input.inLeftGoal, input.inRightGoal, input.ballReset);
    }

    /** `playing_state_process_frame` without its rendering. */
    method PlayingFrame(input: FrameInput)
      requires Valid()
      modifies this, machine, left, right
      ensures Valid()
      ensures View() == PlayingStep(old(View()), input)
      ensures machine.fired == old(machine.fired) + Fired(InputTrigger(input.actions)) + GoalTriggers(score1, score2)
      ensures left.Snapshot() == PaddleAfterPlaying(old(left.Snapshot()), input.actions.p1Up, input.actions.p1Down, input.leftEdge, input.leftDx, input.leftDy)
      ensures right.Snapshot() == PaddleAfterPlaying(old(right.Snapshot()), input.actions.p2Up, input.actions.p2Down, input.rightEdge, input.rightDx, input.rightDy)
    {
      DoInput(input.actions);
      DoUpdate(input);
    }

    /** `start_state_process_frame`, trigger selection only: confirm before quit. */
    method StartFrame(a: Actions)
      requires Valid()
      modifies machine
      ensures Valid()
      ensures machine.current == Fire(old(machine.current), StartFrameTrigger(a))
      ensures machine.fired == old(machine.fired) + Fired(StartFrameTrigger(a))
    {
      if a.confirm {
        machine.Fire(AlwaysTrigger);
      } else if a.quit {
        machine.Fire(QuitGameTrigger);
      }
    }

    /** `pause_state_process_frame`, trigger selection only: confirm resumes before quit. */
    method PauseFrame(a: Actions)
      requires Valid()
      modifies machine
      ensures Valid()
      ensures machine.current == Fire(old(machine.current), PauseFrameTrigger(a))
      ensures machine.fired == old(machine.fired) + Fired(PauseFrameTrigger(a))
    {
      if a.confirm {
        machine.Fire(ResumeTrigger);
      } else if a.quit {
        machine.Fire(QuitGameTrigger);
      }
    }

    /** `game_process_frame`: dispatch on the current state. The paddles change only in a playing frame. */
    method ProcessFrame(input: FrameInput)
      requires Valid()
      modifies this, machine, left, right
      ensures Valid()
      ensures View() == Frame(old(View()), input)
      ensures machine.fired == old(machine.fired) + FrameTriggers(old(View()), input)
      ensures old(machine.current) == PlayingState ==>
                left.Snapshot() == PaddleAfterPlaying(old(left.Snapshot()), input.actions.p1Up, input.actions.p1Down, input.leftEdge, input.leftDx, input.leftDy) &&
                right.Snapshot() == PaddleAfterPlaying(old(right.Snapshot()), input.actions.p2Up, input.actions.p2Down, input.rightEdge, input.rightDx, input.rightDy)
      ensures old(machine.current) != PlayingState ==>
                left.Snapshot() == old(left.Snapshot()) && right.Snapshot() == old(right.Snapshot())
    {
      match machine.current {
        case StartState => StartFrame(input.actions);
        case PlayingState => PlayingFrame(input);
        case PauseState => PauseFrame(input.actions);
        case GameOverState => machine.Fire(AlwaysTrigger);
        case TermState => running := false;
        case StateGuard =>
      }
    }
  }

  /** A session driven by the class from its start: quit in PLAYING reaches TERM, and the next frame stops the loop. */
  method QuitScenario(windowWidth: int, windowHeight: int, configuredBall: Body, idle: FrameInput, quit: FrameInput)
      returns (stillRunning: bool, mode: Mode)
    requires idle.actions.confirm && !idle.actions.quit && !idle.actions.pause
    requires !idle.inLeftGoal && !idle.inRightGoal
    requires quit.actions.quit
    ensures mode == TermState && !stillRunning
  {
    var g := new Game(windowWidth, windowHeight, configuredBall);
    g.ProcessFrame(idle);   // START --confirm--> PLAYING
    g.ProcessFrame(quit);   // PLAYING --quit--> TERM
    mode := g.machine.current;
    g.ProcessFrame(idle);   // TERM: app_stop
    stillRunning := g.running;
  }

  /** A session driven by the class from its start: a left goal in PLAYING gives player 2 one point and resets the ball. */
  method LeftGoalScenario(windowWidth: int, windowHeight: int, configuredBall: Body, confirm: FrameInput, goal: FrameInput)
      returns (score1: nat, score2: nat, ball: Body, mode: Mode)
    requires confirm.actions.confirm
    requires !goal.actions.quit && !goal.actions.pause && goal.inLeftGoal
    ensures score1 == 0 && score2 == 1 && ball == goal.ballReset && mode == PlayingState
  {
    var g := new Game(windowWidth, windowHeight, configuredBall);
    g.ProcessFrame(confirm);   // START --confirm--> PLAYING
    g.ProcessFrame(goal);      // the ball is in the left goal
    score1, score2, ball, mode := g.score1, g.score2, g.ball, g.machine.current;
  }
}
